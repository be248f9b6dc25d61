/**
 * parse_formazione_da_testo (app.py): pasted lineup text to (role, name)
 * entries. Two formats are recognised: the tagged one "(P) Sommer(D)
 * Bastoni...", taken only when it yields eleven players, and one player per
 * line, with header lines skipped and three line shapes tried in turn
 * before a role is guessed from the position.
 *
 * The regular expressions of the source are modelled as explicit
 * character-level functions that follow the regex engine's greedy/lazy
 * choices and backtracking for these particular patterns (IGNORECASE on the
 * role letters; `$` is the end of the text or the point just before a final
 * newline).
 */
module LineupParser {
  import opened Options
  import opened Text

  /** One parsed lineup entry: role code and player name. */
  datatype Pick = Pick(role: char, name: string)

  /** `[PDCA]` under IGNORECASE. */
  predicate IsRoleLetter(c: char) {
    c == 'P' || c == 'D' || c == 'C' || c == 'A' || c == 'p' || c == 'd' || c == 'c' || c == 'a'
  }

  /** The four role codes of the output. */
  predicate IsRoleCode(c: char) {
    c == 'P' || c == 'D' || c == 'C' || c == 'A'
  }

  /** A well-formed entry: a role code and a non-empty, stripped name. */
  predicate WellFormed(p: Pick) {
    IsRoleCode(p.role) && p.name != [] && IsTrimmed(p.name)
  }

  // ===========================================================================
  // The tagged format: \(([PDCA])\)\s*([^(]+?)(?=\([PDCA]\)|$)
  // ===========================================================================

  /** `\([PDCA]\)` at position `k`. */
  predicate TagAt(s: string, k: int) {
    0 <= k && k + 3 <= |s| && s[k] == '(' && IsRoleLetter(s[k + 1]) && s[k + 2] == ')'
  }

  /** `$` without MULTILINE: the end of the text, or just before a final newline. */
  predicate AtEnd(s: string, k: int) {
    k == |s| || (0 <= k == |s| - 1 && s[k] == '\n')
  }

  /** The lookahead `(?=\([PDCA]\)|$)` at position `k`. */
  predicate NameMayEnd(s: string, k: int) {
    TagAt(s, k) || AtEnd(s, k)
  }

  /**
   * The lazy group `([^(]+?)` started at `j`, tried to end at `k`, then
   * `k + 1`, ...: the first end where the lookahead holds, with no '(' in
   * the group.
   */
  function LazyNameEnd(s: string, j: nat, k: nat): (e: Option<nat>)
    requires j < k <= |s|
    requires '(' !in s[j..k - 1]
    ensures e.Some? ==> k <= e.value <= |s| && NameMayEnd(s, e.value) && '(' !in s[j..e.value]
    ensures e.Some? ==> forall q :: k <= q < e.value ==> !NameMayEnd(s, q)
    ensures e.None? ==> forall q :: k <= q <= |s| && '(' !in s[j..q] ==> !NameMayEnd(s, q)
    decreases |s| - k
  {
    assert s[j..k] == s[j..k - 1] + [s[k - 1]];
    if s[k - 1] == '(' then
      assert forall q :: k <= q <= |s| ==> s[j..q][k - 1 - j] == '(';
      None
    else if NameMayEnd(s, k) then Some(k)
    else if k < |s| then LazyNameEnd(s, j, k + 1)
    else None
  }

  /** A name may start at `t`: some later position satisfies the lookahead with no '(' in between. */
  predicate NameFits(s: string, t: nat) {
    t < |s| && exists e :: t < e <= |s| && NameMayEnd(s, e) && '(' !in s[t..e]
  }

  /**
   * Greedy `\s*` followed by the lazy name: the name is first tried right
   * after the whole whitespace run (`j`), then one character earlier, and
   * so on back to `lo`, as the regex engine backtracks.
   */
  function NameAfterSpaces(s: string, lo: nat, j: nat): (r: Option<(nat, nat)>)
    requires lo <= j <= |s|
    ensures r.Some? ==> lo <= r.value.0 <= j && r.value.0 < r.value.1 <= |s|
    ensures r.Some? ==> NameMayEnd(s, r.value.1) && '(' !in s[r.value.0..r.value.1]
    ensures r.Some? ==> forall q :: r.value.0 < q < r.value.1 ==> !NameMayEnd(s, q)
    ensures r.Some? ==> forall t :: r.value.0 < t <= j ==> !NameFits(s, t)
    ensures r.None? ==> forall t :: lo <= t <= j ==> !NameFits(s, t)
    decreases j
  {
    var here := if j < |s| then LazyNameEnd(s, j, j + 1) else None;
    match here
    case Some(e) => Some((j, e))
    case None => if j > lo then NameAfterSpaces(s, lo, j - 1) else None
  }

  /** Where the whitespace run `\s*` that starts at `k` ends. */
  function SpaceRunEnd(s: string, k: nat): (e: nat)
    requires k <= |s|
    ensures k <= e <= |s|
  {
    k + LeadingRun(s[k..], IsSpace)
  }

  /**
   * One match of the tagged pattern starting at `i`: role letter, raw name
   * group, end of the match. There is a match exactly when a tag stands at
   * `i` and a name fits somewhere in the whitespace after it; the name then
   * starts at the last such place and ends at the first place the
   * lookahead allows.
   */
  function TaggedAt(s: string, i: nat): (r: Option<(char, string, nat)>)
    ensures r.Some? ==> TagAt(s, i) && r.value.0 == s[i + 1] && IsRoleLetter(r.value.0)
    ensures r.Some? ==> i + 3 < r.value.2 <= |s| && NameMayEnd(s, r.value.2)
    ensures r.Some? ==> r.value.1 != [] && '(' !in r.value.1
    ensures r.Some? <==> TagAt(s, i) && exists t :: i + 3 <= t <= SpaceRunEnd(s, i + 3) && NameFits(s, t)
    ensures r.Some? ==>
      var t := r.value.2 - |r.value.1|;
      i + 3 <= t <= SpaceRunEnd(s, i + 3) && r.value.1 == s[t..r.value.2]
      && (forall u :: t < u <= SpaceRunEnd(s, i + 3) ==> !NameFits(s, u))
      && (forall q :: t < q < r.value.2 ==> !NameMayEnd(s, q))
  {
    if TagAt(s, i) then
      match NameAfterSpaces(s, i + 3, SpaceRunEnd(s, i + 3))
      case Some((j, k)) =>
        assert NameFits(s, j) by {
          assert j < k <= |s| && NameMayEnd(s, k) && '(' !in s[j..k];
        }
        Some((s[i + 1], s[j..k], k))
      case None => None
    else None
  }

  /** `re.findall`: the matches from left to right, each search resuming where the previous match ended. */
  function FindTagged(s: string, i: nat): (ms: seq<(char, string)>)
    requires i <= |s|
    ensures forall m :: m in ms ==> IsRoleLetter(m.0) && m.1 != [] && '(' !in m.1
    decreases |s| - i
  {
    if i == |s| then []
    else
      match TaggedAt(s, i)
      case Some((role, name, end)) => [(role, name)] + FindTagged(s, end)
      case None => FindTagged(s, i + 1)
  }

  /** A name the tagged pattern captures whole: non-empty, no '(' or newline, no blank at either end. */
  predicate PlainName(name: string) {
    name != [] && '(' !in name && '\n' !in name && IsTrimmed(name)
  }

  /** One entry in the tagged format: "(X) name". */
  function TagPiece(m: (char, string)): string {
    ['(', m.0, ')', ' '] + m.1
  }

  /** Entries written out in the tagged format, one right after another: "(P) Sommer(D) Bastoni...". */
  function TaggedText(ms: seq<(char, string)>): string
    decreases |ms|
  {
    if ms == [] then [] else TagPiece(ms[0]) + TaggedText(ms[1..])
  }

  /** A piece "(X) name" followed by a tag or the end is matched whole, with its letter and name. */
  lemma TaggedAtPiece(s: string, k: nat, m: (char, string))
    requires IsRoleLetter(m.0) && PlainName(m.1)
    requires k + 4 + |m.1| <= |s| && s[k..k + 4 + |m.1|] == TagPiece(m)
    requires NameMayEnd(s, k + 4 + |m.1|)
    ensures TaggedAt(s, k) == Some((m.0, m.1, k + 4 + |m.1|))
  {
    var name := m.1;
    var end := k + 4 + |name|;
    assert forall i :: 0 <= i < 4 + |name| ==> s[k..end][i] == TagPiece(m)[i];
    assert s[k] == '(' && s[k + 1] == m.0 && s[k + 2] == ')' && s[k + 3] == ' ';
    forall i | 0 <= i < |name|
      ensures s[k + 4..end][i] == name[i]
    {
      assert s[k..end][4 + i] == TagPiece(m)[4 + i];
    }
    assert s[k + 3..][0] == ' ' && s[k + 3..][1] == name[0];
    LeadingRunIs(s[k + 3..], IsSpace, 1);
    assert SpaceRunEnd(s, k + 3) == k + 4;
    assert NameFits(s, k + 4);
    var r := TaggedAt(s, k);
    assert r.Some?;
    var t := r.value.2 - |r.value.1|;
    assert t == k + 4;
    if r.value.2 < end {
      assert false;
    } else if r.value.2 > end {
      assert false;
    }
    assert s[k + 4..end] == name;
  }

  /** Reading the tagged format back: the matches after a prefix are the entries written there. */
  lemma {:induction false} FindTaggedText(p: string, ms: seq<(char, string)>)
    requires forall m :: m in ms ==> IsRoleLetter(m.0) && PlainName(m.1)
    ensures FindTagged(p + TaggedText(ms), |p|) == ms
    decreases |ms|
  {
    var s := p + TaggedText(ms);
    if ms == [] {
      assert s == p;
    } else {
      var m := ms[0];
      var rest := ms[1..];
      var next := p + TagPiece(m);
      assert forall x :: x in rest ==> x in ms;
      assert s == next + TaggedText(rest);
      assert s[|p|..|next|] == TagPiece(m);
      TaggedTextStarts(next, rest);
      TaggedAtPiece(s, |p|, m);
      FindTaggedStep(s, |p|, m, |next|);
      FindTaggedText(next, rest);
      assert FindTagged(s, |next|) == rest;
      assert ms == [m] + rest;
    }
  }

  /** A match at `i` ending at `e` is the first one found, and the search resumes at `e`. */
  lemma FindTaggedStep(s: string, i: nat, m: (char, string), e: nat)
    requires i < |s| && TaggedAt(s, i) == Some((m.0, m.1, e))
    ensures FindTagged(s, i) == [m] + FindTagged(s, e)
  {
  }

  /** What follows a prefix in the tagged format is a tag or the end, as the lookahead requires. */
  lemma TaggedTextStarts(p: string, ms: seq<(char, string)>)
    requires forall m :: m in ms ==> IsRoleLetter(m.0)
    ensures NameMayEnd(p + TaggedText(ms), |p|)
  {
    if ms != [] {
      var s := p + TaggedText(ms);
      assert s[|p|..] == TagPiece(ms[0]) + TaggedText(ms[1..]);
      assert s[|p|..][..3] == ['(', ms[0].0, ')'];
      assert ms[0] in ms;
    }
  }

  /** Whether `t` is wholly `\s*`. */
  predicate AllSpace(t: string) {
    t == [] || (IsSpace(t[0]) && AllSpace(t[1..]))
  }

  /** Whether `t` is wholly `\d*\s*`: the digits after the decimal point, then blanks. */
  predicate FractionTail(t: string) {
    AllSpace(t) || (IsDigit(t[0]) && FractionTail(t[1..]))
  }

  /** Whether `t` is wholly `\d*\.?\d*\s*` with no digit required: what may follow the first digit. */
  predicate AfterFirstDigit(t: string) {
    FractionTail(t) || (t[0] == '.' && FractionTail(t[1..])) || (IsDigit(t[0]) && AfterFirstDigit(t[1..]))
  }

  /** Whether `t` is wholly `\d+\.?\d*\s*`, the pattern the tagged names lose at their end. */
  predicate NumericTail(t: string) {
    t != [] && IsDigit(t[0]) && AfterFirstDigit(t[1..])
  }

  /** Start of the leftmost numeric tail of `x` at or after `m`, or `|x|` when there is none. */
  function NumericTailStart(x: string, m: nat): (p: nat)
    requires m <= |x|
    ensures m <= p <= |x|
    decreases |x| - m
  {
    if m == |x| then m
    else if NumericTail(x[m..]) then m
    else NumericTailStart(x, m + 1)
  }

  /** The search finds the leftmost start of a numeric tail. */
  lemma {:induction false} NumericTailStartFacts(x: string, m: nat)
    requires m <= |x|
    ensures NumericTailStart(x, m) < |x| ==> NumericTail(x[NumericTailStart(x, m)..])
    ensures forall q :: m <= q < NumericTailStart(x, m) ==> !NumericTail(x[q..])
    decreases |x| - m
  {
    if m < |x| && !NumericTail(x[m..]) {
      NumericTailStartFacts(x, m + 1);
    }
  }

  /** `re.sub(r'\d+\.?\d*\s*$', '', x)`: the leftmost match runs to the end, so it is cut off. */
  function DropNumericTail(x: string): string {
    x[..NumericTailStart(x, 0)]
  }

  /** The name cleaning of the tagged format: strip, drop trailing numbers, strip again. */
  function CleanName(raw: string): (name: string)
    ensures IsTrimmed(name)
  {
    StripIsTrimmed(DropNumericTail(Strip(raw)));
    Strip(DropNumericTail(Strip(raw)))
  }

  /** Each match as an entry: role upper-cased, name cleaned. */
  function TaggedCandidates(ms: seq<(char, string)>): (ps: seq<Pick>)
    requires forall m :: m in ms ==> IsRoleLetter(m.0)
    ensures |ps| == |ms|
    ensures forall i :: 0 <= i < |ps| ==> IsRoleCode(ps[i].role) && IsTrimmed(ps[i].name)
  {
    if ms == [] then []
    else
      var init := ms[..|ms| - 1];
      assert forall m :: m in init ==> m in ms;
      var last := ms[|ms| - 1];
      assert last in ms;
      UpperRoleLetter(last.0);
      TaggedCandidates(init) + [Pick(UpperChar(last.0), CleanName(last.1))]
  }

  /** Entry `i` comes from match `i`. */
  lemma {:induction false} TaggedCandidateAt(ms: seq<(char, string)>, i: nat)
    requires forall m :: m in ms ==> IsRoleLetter(m.0)
    requires i < |ms|
    ensures TaggedCandidates(ms)[i] == Pick(UpperChar(ms[i].0), CleanName(ms[i].1))
  {
    var init := ms[..|ms| - 1];
    assert forall m :: m in init ==> m in ms;
    if i < |init| {
      TaggedCandidateAt(init, i);
    }
  }

  /** The entries whose name is not empty, in order. */
  function KeepNamed(ps: seq<Pick>): (r: seq<Pick>)
    ensures |r| <= |ps|
    ensures forall p :: p in r ==> p in ps && p.name != []
  {
    if ps == [] then []
    else
      var last := ps[|ps| - 1];
      KeepNamed(ps[..|ps| - 1]) + (if last.name != [] then [last] else [])
  }

  /** Nothing is dropped exactly when no name is empty. */
  lemma {:induction false} KeepNamedAll(ps: seq<Pick>)
    ensures |KeepNamed(ps)| == |ps| <==> forall i :: 0 <= i < |ps| ==> ps[i].name != []
  {
    if ps != [] {
      var init := ps[..|ps| - 1];
      var last := ps[|ps| - 1];
      KeepNamedAll(init);
      assert KeepNamed(ps) == KeepNamed(init) + if last.name != [] then [last] else [];
      assert forall i :: 0 <= i < |init| ==> init[i] == ps[i];
      if last.name == [] {
        assert |KeepNamed(ps)| < |ps|;
      }
    }
  }

  /** With no empty name, nothing changes. */
  lemma {:induction false} KeepNamedUnchanged(ps: seq<Pick>)
    requires forall i :: 0 <= i < |ps| ==> ps[i].name != []
    ensures KeepNamed(ps) == ps
  {
    if ps != [] {
      var init := ps[..|ps| - 1];
      KeepNamedUnchanged(init);
      assert ps == init + [ps[|ps| - 1]];
    }
  }

  /** The entries the first matches give: role upper-cased, name cleaned, empty names skipped. */
  function TaggedPicks(ms: seq<(char, string)>): (ps: seq<Pick>)
    requires forall m :: m in ms ==> IsRoleLetter(m.0)
    ensures |ps| <= |ms|
    ensures forall i :: 0 <= i < |ps| ==> WellFormed(ps[i])
  {
    var cs := TaggedCandidates(ms);
    var ps := KeepNamed(cs);
    assert forall i :: 0 <= i < |ps| ==> ps[i] in cs;
    ps
  }

  /** Upper-casing a role letter gives a role code. */
  lemma UpperRoleLetter(c: char)
    requires IsRoleLetter(c)
    ensures IsRoleCode(UpperChar(c))
  {
  }

  /**
   * The tagged format wins when there are at least eleven matches and none
   * of the first eleven names cleans to nothing: the lineup is those eleven,
   * in order.
   */
  lemma TaggedFormatTaken(text: string)
    requires Strip(text) != []
    requires |FindTagged(text, 0)| >= 11
    requires forall i :: 0 <= i < 11 ==> CleanName(FindTagged(text, 0)[i].1) != []
    ensures LineupFromText(text).Some? && |LineupFromText(text).value| == 11
    ensures forall i :: 0 <= i < 11 ==>
      LineupFromText(text).value[i] == Pick(UpperChar(FindTagged(text, 0)[i].0), CleanName(FindTagged(text, 0)[i].1))
  {
    var ms := FindTagged(text, 0);
    var first := ms[..11];
    assert forall m :: m in first ==> m in ms;
    TaggedAllNamed(first);
    assert LineupFromText(text) == Some(TaggedPicks(first));
  }

  /** When every cleaned name is non-empty, every match gives its entry, in order. */
  lemma TaggedAllNamed(ms: seq<(char, string)>)
    requires forall m :: m in ms ==> IsRoleLetter(m.0)
    requires forall i :: 0 <= i < |ms| ==> CleanName(ms[i].1) != []
    ensures |TaggedPicks(ms)| == |ms|
    ensures forall i :: 0 <= i < |ms| ==> TaggedPicks(ms)[i] == Pick(UpperChar(ms[i].0), CleanName(ms[i].1))
  {
    var cs := TaggedCandidates(ms);
    forall i | 0 <= i < |ms|
      ensures cs[i] == Pick(UpperChar(ms[i].0), CleanName(ms[i].1))
    {
      TaggedCandidateAt(ms, i);
    }
    KeepNamedUnchanged(cs);
  }

  /** Fewer than eleven matches, or an empty name among the first eleven, leaves the text to the line format. */
  lemma TaggedFormatRefused(text: string)
    requires Strip(text) != []
    requires |FindTagged(text, 0)| < 11
      || exists i :: 0 <= i < 11 <= |FindTagged(text, 0)| && CleanName(FindTagged(text, 0)[i].1) == []
    ensures LineupFromText(text) ==
      var picks := LinePicks(HeaderFree(NonBlankLines(text)));
      if picks == [] then None else Some(picks)
  {
    var ms := FindTagged(text, 0);
    if |ms| >= 11 {
      var first := ms[..11];
      assert forall m :: m in first ==> m in ms;
      var i :| 0 <= i < 11 && CleanName(ms[i].1) == [];
      TaggedCandidateAt(first, i);
      KeepNamedAll(TaggedCandidates(first));
    }
  }

  /** Without a '(' from `i` on, there is no tagged match. */
  lemma {:induction false} FindTaggedNoTag(s: string, i: nat)
    requires i <= |s| && '(' !in s[i..]
    ensures FindTagged(s, i) == []
    decreases |s| - i
  {
    if i < |s| {
      assert s[i..][0] == s[i];
      assert !TagAt(s, i);
      assert s[i + 1..] == s[i..][1..];
      FindTaggedNoTag(s, i + 1);
    }
  }

  /** Reading the tagged format from the start of the text gives the entries written. */
  lemma FindTaggedRoundTrip(ms: seq<(char, string)>)
    requires forall m :: m in ms ==> IsRoleLetter(m.0) && PlainName(m.1)
    ensures FindTagged(TaggedText(ms), 0) == ms
  {
    FindTaggedText([], ms);
    assert [] + TaggedText(ms) == TaggedText(ms);
  }

  /** The source's own sample of the tagged format. */
  lemma TaggedSampleExample()
    ensures FindTagged("(P) Sommer(D) Bastoni", 0) == [('P', "Sommer"), ('D', "Bastoni")]
  {
    TaggedSampleSteps("(P) Sommer(D) Bastoni");
  }

  lemma TaggedSampleSteps(text: string)
    requires text == "(P) Sommer(D) Bastoni"
    ensures FindTagged(text, 0) == [('P', "Sommer"), ('D', "Bastoni")]
  {
    var ms := [('P', "Sommer"), ('D', "Bastoni")];
    assert ms[1..][1..] == [];
    assert TaggedText(ms) == TagPiece(ms[0]) + TagPiece(ms[1]);
    assert TaggedText(ms) == text;
    FindTaggedRoundTrip(ms);
  }

  predicate NoDigits(x: string) {
    forall k :: 0 <= k < |x| ==> !IsDigit(x[k])
  }

  /** A stripped name without digits has no numeric tail: cleaning keeps it. */
  lemma CleanNameNoDigits(x: string)
    requires IsTrimmed(x) && NoDigits(x)
    ensures CleanName(x) == x
  {
    TrimmedStripsToItself(x);
    NumericTailStartFacts(x, 0);
    assert x[..|x|] == x;
  }

  /**
   * A text in the tagged format with at least eleven entries, whose names
   * carry no digits, is read as its first eleven entries, letters
   * upper-cased.
   */
  lemma TaggedTextLineup(ms: seq<(char, string)>)
    requires |ms| >= 11
    requires forall i :: 0 <= i < |ms| ==> IsRoleLetter(ms[i].0) && PlainName(ms[i].1) && NoDigits(ms[i].1)
    ensures LineupFromText(TaggedText(ms)).Some?
    ensures |LineupFromText(TaggedText(ms)).value| == 11
    ensures forall i :: 0 <= i < 11 ==> LineupFromText(TaggedText(ms)).value[i] == Pick(UpperChar(ms[i].0), ms[i].1)
  {
    var text := TaggedText(ms);
    assert text[0] == '(';
    StripNonBlank(text, 0);
    FindTaggedRoundTrip(ms);
    forall i | 0 <= i < 11
      ensures CleanName(ms[i].1) == ms[i].1
    {
      CleanNameNoDigits(ms[i].1);
    }
    TaggedFormatTaken(text);
  }

  /** An eleven of the tagged format, role letters in either case. */
  const SampleEleven: seq<(char, string)> := [
    ('P', "Sommer"), ('D', "Bastoni"), ('d', "Cambiaso"), ('D', "Acerbi"), ('D', "Dimarco"),
    ('C', "Barella"), ('c', "Frattesi"), ('C', "Mkhitaryan"), ('C', "Zielinski"),
    ('A', "Lautaro"), ('a', "Thuram")]

  /** Eleven tagged entries make the lineup, in order, with the letters upper-cased. */
  lemma TaggedElevenExample()
    ensures LineupFromText(TaggedText(SampleEleven)) == Some([
      Pick('P', "Sommer"), Pick('D', "Bastoni"), Pick('D', "Cambiaso"), Pick('D', "Acerbi"), Pick('D', "Dimarco"),
      Pick('C', "Barella"), Pick('C', "Frattesi"), Pick('C', "Mkhitaryan"), Pick('C', "Zielinski"),
      Pick('A', "Lautaro"), Pick('A', "Thuram")])
  {
    TaggedElevenSteps(SampleEleven);
  }

  lemma TaggedElevenSteps(ms: seq<(char, string)>)
    requires ms == SampleEleven
    ensures LineupFromText(TaggedText(ms)) == Some([
      Pick('P', "Sommer"), Pick('D', "Bastoni"), Pick('D', "Cambiaso"), Pick('D', "Acerbi"), Pick('D', "Dimarco"),
      Pick('C', "Barella"), Pick('C', "Frattesi"), Pick('C', "Mkhitaryan"), Pick('C', "Zielinski"),
      Pick('A', "Lautaro"), Pick('A', "Thuram")])
  {
    ElevenPlain(ms);
    TaggedTextLineup(ms);
    ElevenPicks(ms, LineupFromText(TaggedText(ms)).value);
  }

  lemma ElevenPicks(ms: seq<(char, string)>, ps: seq<Pick>)
    requires ms == SampleEleven
    requires |ps| == 11 && forall i :: 0 <= i < 11 ==> ps[i] == Pick(UpperChar(ms[i].0), ms[i].1)
    ensures ps == [
      Pick('P', "Sommer"), Pick('D', "Bastoni"), Pick('D', "Cambiaso"), Pick('D', "Acerbi"), Pick('D', "Dimarco"),
      Pick('C', "Barella"), Pick('C', "Frattesi"), Pick('C', "Mkhitaryan"), Pick('C', "Zielinski"),
      Pick('A', "Lautaro"), Pick('A', "Thuram")]
  {
  }

  lemma ElevenPlain(ms: seq<(char, string)>)
    requires ms == SampleEleven
    ensures |ms| == 11
    ensures forall i :: 0 <= i < |ms| ==> IsRoleLetter(ms[i].0) && PlainName(ms[i].1) && NoDigits(ms[i].1)
  {
    ElevenWords(ms);
    WordsArePlain(ms);
  }

  lemma ElevenWords(ms: seq<(char, string)>)
    requires ms == SampleEleven
    ensures |ms| == 11
    ensures forall i :: 0 <= i < |ms| ==> IsRoleLetter(ms[i].0) && Word(ms[i].1)
  {
  }

  /** Entries named by words qualify for the tagged round trip. */
  lemma WordsArePlain(ms: seq<(char, string)>)
    requires forall i :: 0 <= i < |ms| ==> IsRoleLetter(ms[i].0) && Word(ms[i].1)
    ensures forall i :: 0 <= i < |ms| ==> IsRoleLetter(ms[i].0) && PlainName(ms[i].1) && NoDigits(ms[i].1)
  {
    forall i | 0 <= i < |ms|
      ensures PlainName(ms[i].1) && NoDigits(ms[i].1)
    {
      LettersArePlain(ms[i].1);
    }
  }

  /** An ASCII word. */
  predicate Word(name: string) {
    name != [] && forall k :: 0 <= k < |name| ==> 'A' <= name[k] <= 'Z' || 'a' <= name[k] <= 'z'
  }

  /** A word is a plain name without digits. */
  lemma LettersArePlain(name: string)
    requires Word(name)
    ensures PlainName(name) && NoDigits(name)
  {
    assert forall k :: 0 <= k < |name| ==> name[k] != '(' && name[k] != '\n';
  }

  /** Trailing numbers, such as a pasted rating, are cut from a tagged name. */
  lemma CleanNameExample()
    ensures CleanName(" Sommer 6.5 ") == "Sommer"
  {
    CleanNameExampleSteps(" Sommer 6.5 ");
  }

  lemma CleanNameExampleSteps(raw: string)
    requires raw == " Sommer 6.5 "
    ensures CleanName(raw) == "Sommer"
  {
    CleanNameExampleStrip(raw, "Sommer 6.5", 1);
    var x := Strip(raw);
    CleanNameExampleTail(x);
    CleanNameExampleStrip(DropNumericTail(x), "Sommer", 0);
  }

  /** The two strips of the example: `k` blanks, the kept text, then blanks. */
  lemma CleanNameExampleStrip(s: string, t: string, k: nat)
    requires (s == " Sommer 6.5 " && t == "Sommer 6.5" && k == 1) || (s == "Sommer " && t == "Sommer" && k == 0)
    ensures Strip(s) == t
  {
    StripPadded(s, t, k);
  }

  lemma CleanNameExampleTail(x: string)
    requires x == "Sommer 6.5"
    ensures DropNumericTail(x) == "Sommer "
  {
    var t := x[7..];
    assert t[1..][1..][1..] == [];
    assert FractionTail(t[1..][1..]);
    assert NumericTail(t);
    forall q | 0 <= q < 7
      ensures !NumericTail(x[q..])
    {
      assert x[q..][0] == x[q];
    }
    NumericTailStartSkip(x, 0, 7);
  }

  /** Start points without a numeric tail are passed over. */
  lemma {:induction false} NumericTailStartSkip(x: string, m: nat, p: nat)
    requires m <= p < |x|
    requires forall q :: m <= q < p ==> !NumericTail(x[q..])
    requires NumericTail(x[p..])
    ensures NumericTailStart(x, m) == p
    decreases p - m
  {
    if m < p {
      NumericTailStartSkip(x, m + 1, p);
    }
  }

  // ===========================================================================
  // The line format
  // ===========================================================================

  /** Keeps the stripped non-blank pieces, in order. */
  function NonBlank(parts: seq<string>): (ls: seq<string>)
    requires forall p :: p in parts ==> '\n' !in p
    ensures forall l :: l in ls ==> l != [] && '\n' !in l && IsTrimmed(l)
    ensures forall p :: p in parts && Strip(p) != [] ==> Strip(p) in ls
    ensures |ls| <= |parts|
    ensures (forall p :: p in parts ==> p != [] && IsTrimmed(p)) ==> ls == parts
  {
    if parts == [] then []
    else
      var init := parts[..|parts| - 1];
      var last := parts[|parts| - 1];
      assert parts == init + [last];
      assert forall p :: p in init ==> p in parts;
      StripWhereKeepsOut(last, IsSpace, '\n');
      StripIsTrimmed(last);
      assert IsTrimmed(last) ==> Strip(last) == last by {
        if IsTrimmed(last) {
          TrimmedStripsToItself(last);
        }
      }
      NonBlank(init) + (if Strip(last) != [] then [Strip(last)] else [])
  }

  /** Filtering keeps the order: the kept pieces of `a + b` are those of `a`, then those of `b`. */
  lemma {:induction false} NonBlankAppend(a: seq<string>, b: seq<string>)
    requires forall p :: p in a ==> '\n' !in p
    requires forall p :: p in b ==> '\n' !in p
    ensures NonBlank(a + b) == NonBlank(a) + NonBlank(b)
    decreases |b|
  {
    if b == [] {
      assert a + b == a;
    } else {
      var init := b[..|b| - 1];
      var last := b[|b| - 1];
      assert forall p :: p in init ==> p in b;
      assert a + b == (a + init) + [last];
      assert b == init + [last];
      NonBlankAppend(a, init);
      var keep := if Strip(last) != [] then [Strip(last)] else [];
      calc {
        NonBlank(a + b);
        { NonBlankSnoc(a + init, last); }
        NonBlank(a + init) + keep;
        (NonBlank(a) + NonBlank(init)) + keep;
        NonBlank(a) + (NonBlank(init) + keep);
        { NonBlankSnoc(init, last); }
        NonBlank(a) + NonBlank(b);
      }
    }
  }

  /** One more piece at the end adds its stripped form, if not blank. */
  lemma NonBlankSnoc(parts: seq<string>, last: string)
    requires forall p :: p in parts ==> '\n' !in p
    requires '\n' !in last
    ensures NonBlank(parts + [last]) == NonBlank(parts) + if Strip(last) != [] then [Strip(last)] else []
  {
    var all := parts + [last];
    assert all[..|all| - 1] == parts;
  }

  /** `[l.strip() for l in text.strip().split('\n') if l.strip()]` */
  function NonBlankLines(text: string): (ls: seq<string>)
    ensures forall l :: l in ls ==> l != [] && '\n' !in l && IsTrimmed(l)
  {
    NonBlank(SplitOn(Strip(text), '\n'))
  }

  /** Lines that are already stripped, non-blank and joined by newlines come back as they were. */
  lemma NonBlankLinesJoin(lines: seq<string>)
    requires lines != []
    requires forall l :: l in lines ==> l != [] && '\n' !in l && IsTrimmed(l)
    ensures NonBlankLines(JoinWith(lines, '\n')) == lines
  {
    var text := JoinWith(lines, '\n');
    assert lines[0] in lines && lines[|lines| - 1] in lines;
    JoinWithEnds(lines, '\n');
    TrimmedStripsToItself(text);
    JoinWithSplitOn(lines, '\n');
  }

  const HeaderKeywords: seq<string> :=
    ["giornata", "modulo", "gol -", "bundesliga", "serie a", "giocatore", "voto", "team", " : ", "formazione"]

  /** A header or match-info line: one of the keywords occurs in the lower-cased line. */
  predicate IsHeader(line: string) {
    exists k :: 0 <= k < |HeaderKeywords| && Contains(LowerAscii(line), HeaderKeywords[k])
  }

  /** A line naming the lineup, in any case, is a header. */
  lemma HeaderExample()
    ensures IsHeader("FORMAZIONE Inter")
  {
    HeaderExampleSteps("FORMAZIONE Inter");
  }

  lemma HeaderExampleSteps(line: string)
    requires line == "FORMAZIONE Inter"
    ensures IsHeader(line)
  {
    LowerStartsWith(line, "formazione");
    assert HeaderKeywords[9] == "formazione";
    assert Contains(LowerAscii(line), HeaderKeywords[9]);
  }

  /** The lines without the header lines, in order. */
  function HeaderFree(lines: seq<string>): (r: seq<string>)
    ensures forall l :: l in r ==> l in lines && !IsHeader(l)
    ensures forall l :: l in lines && !IsHeader(l) ==> l in r
    ensures |r| <= |lines|
    ensures (forall l :: l in lines ==> !IsHeader(l)) ==> r == lines
  {
    if lines == [] then []
    else
      var init := lines[..|lines| - 1];
      var last := lines[|lines| - 1];
      assert lines == init + [last];
      HeaderFree(init) + (if IsHeader(last) then [] else [last])
  }

  /**
   * Filtering keeps the order of the lines: the kept lines of a text made of
   * two parts are the kept lines of the first part followed by those of the
   * second.
   */
  lemma {:induction false} HeaderFreeAppend(a: seq<string>, b: seq<string>)
    ensures HeaderFree(a + b) == HeaderFree(a) + HeaderFree(b)
    decreases |b|
  {
    if b != [] {
      var init := b[..|b| - 1];
      var last := b[|b| - 1];
      assert (a + b)[..|a + b| - 1] == a + init;
      assert (a + b)[|a + b| - 1] == last;
      HeaderFreeAppend(a, init);
    } else {
      assert a + b == a;
    }
  }

  predicate IsColonOrSpace(c: char) {
    c == ':' || IsSpace(c)
  }

  predicate IsDashOrSpace(c: char) {
    c == '-' || IsSpace(c)
  }

  /**
   * Rule `^([PDCA])[:\s]+(.+)$`: a role letter, a run of ':' or whitespace
   * (greedy, giving back one character when nothing else is left), and the
   * rest as the name.
   */
  function LeadingRole(line: string): Option<Pick>
    requires '\n' !in line
  {
    if line == [] || !IsRoleLetter(line[0]) then None
    else
      var e := 1 + LeadingRun(line[1..], IsColonOrSpace);
      if 2 <= e < |line| then Some(Pick(UpperChar(line[0]), Strip(line[e..])))
      else if e == |line| && e >= 3 then Some(Pick(UpperChar(line[0]), Strip(line[e - 1..])))
      else None
  }

  /**
   * The first rule fires exactly on a role letter followed by ':' or
   * whitespace and at least one more character, and gives that letter
   * upper-cased.
   */
  lemma LeadingRoleShape(line: string)
    requires '\n' !in line
    ensures LeadingRole(line).Some? <==> |line| >= 3 && IsRoleLetter(line[0]) && IsColonOrSpace(line[1])
    ensures LeadingRole(line).Some? ==> LeadingRole(line).value.role == UpperChar(line[0])
    ensures forall e :: 2 <= e < |line| && IsRoleLetter(line[0]) && SeparatorUpTo(line, e) && !IsColonOrSpace(line[e]) ==>
      LeadingRole(line) == Some(Pick(UpperChar(line[0]), Strip(line[e..])))
    ensures |line| >= 3 && IsRoleLetter(line[0]) && SeparatorUpTo(line, |line|) ==>
      LeadingRole(line) == Some(Pick(UpperChar(line[0]), Strip(line[|line| - 1..])))
  {
    if line != [] && IsRoleLetter(line[0]) && |line| >= 2 && IsColonOrSpace(line[1]) {
      assert line[1..][0] == line[1];
    }
    forall e | 2 <= e <= |line| && IsRoleLetter(line[0]) && SeparatorUpTo(line, e) && (e == |line| || !IsColonOrSpace(line[e]))
      ensures 1 + LeadingRun(line[1..], IsColonOrSpace) == e
    {
      LeadingRunIs(line[1..], IsColonOrSpace, e - 1);
    }
  }

  /** Every character of `line` from the second up to `e` is ':' or whitespace. */
  predicate SeparatorUpTo(line: string, e: nat) {
    e <= |line| && forall k :: 1 <= k < e ==> IsColonOrSpace(line[k])
  }

  /** A line of the first shape is decided by the first rule, before any other is tried. */
  lemma LeadingRoleFirst(line: string, count: nat)
    requires '\n' !in line
    requires |line| >= 3 && IsRoleLetter(line[0]) && IsColonOrSpace(line[1])
    ensures ClassifyLine(line, count) == LeadingRole(line)
    ensures ClassifyLine(line, count).Some? && ClassifyLine(line, count).value.role == UpperChar(line[0])
  {
    LeadingRoleShape(line);
  }

  /** Whether `t` is wholly `[\s\-]+\(?[PDCA]\)?`. */
  predicate RoleSuffix(t: string) {
    var g := LeadingRun(t, IsDashOrSpace);
    var u := t[g..];
    g >= 1 && (
      (|u| == 1 && IsRoleLetter(u[0]))
      || (|u| == 2 && u[0] == '(' && IsRoleLetter(u[1]))
      || (|u| == 2 && IsRoleLetter(u[0]) && u[1] == ')')
      || (|u| == 3 && u[0] == '(' && IsRoleLetter(u[1]) && u[2] == ')'))
  }

  /** The role letter of a role suffix. */
  function SuffixLetter(t: string): (c: char)
    requires RoleSuffix(t)
    ensures IsRoleLetter(c)
  {
    var u := t[LeadingRun(t, IsDashOrSpace)..];
    if IsRoleLetter(u[0]) then u[0] else u[1]
  }

  /** The lazy `^(.+?)` tried with `n`, `n + 1`, ... characters until the rest is a role suffix. */
  function TrailingRoleFrom(line: string, n: nat): Option<Pick>
    requires 1 <= n <= |line|
    decreases |line| - n
  {
    if n == |line| then None
    else if RoleSuffix(line[n..]) then Some(Pick(UpperChar(SuffixLetter(line[n..])), Strip(line[..n])))
    else TrailingRoleFrom(line, n + 1)
  }

  /**
   * The lazy name is the shortest one: the search succeeds exactly when
   * some split point leaves a role suffix, and then it splits at the first
   * such point, naming the stripped part before it and the suffix's letter.
   */
  lemma {:induction false} TrailingRoleFromShape(line: string, n: nat)
    requires 1 <= n <= |line|
    ensures TrailingRoleFrom(line, n).None? <==> forall m :: n <= m < |line| ==> !RoleSuffix(line[m..])
    ensures TrailingRoleFrom(line, n).Some? ==>
      exists m :: n <= m < |line| && RoleSuffix(line[m..])
        && TrailingRoleFrom(line, n).value == Pick(UpperChar(SuffixLetter(line[m..])), Strip(line[..m]))
        && forall q :: n <= q < m ==> !RoleSuffix(line[q..])
    decreases |line| - n
  {
    if n < |line| && !RoleSuffix(line[n..]) {
      TrailingRoleFromShape(line, n + 1);
    }
  }

  /** Rule `^(.+?)[\s\-]+\(?([PDCA])\)?$`: "Name (X)" or "Name - X". */
  function TrailingRole(line: string): Option<Pick>
    requires '\n' !in line
  {
    if line == [] then None else TrailingRoleFrom(line, 1)
  }

  /** The role words in the iteration order of the source's dictionary. */
  const RoleWords: seq<(string, char)> := [
    ("portiere", 'P'), ("por", 'P'),
    ("difensore", 'D'), ("dif", 'D'),
    ("centrocampista", 'C'), ("centro", 'C'), ("cen", 'C'),
    ("attaccante", 'A'), ("att", 'A')]

  /** The characters of `strip(' :')`. */
  predicate IsBlankOrColon(c: char) {
    c == ' ' || c == ':'
  }

  /** `line[len(word):].strip(' :').strip()` */
  function AfterRoleWord(line: string, word: string): string
    requires |word| <= |line|
  {
    Strip(StripWhere(line[|word|..], IsBlankOrColon))
  }

  /**
   * The role-word loop from entry `j`: the first word that starts the
   * lower-cased line and leaves a non-empty name; a word that leaves an
   * empty name does not stop the search.
   */
  function RoleWordPick(line: string, j: nat): Option<Pick>
    requires j <= |RoleWords|
    decreases |RoleWords| - j
  {
    if j == |RoleWords| then None
    else
      var word := RoleWords[j].0;
      if StartsWith(LowerAscii(line), word) && AfterRoleWord(line, word) != [] then
        Some(Pick(RoleWords[j].1, AfterRoleWord(line, word)))
      else RoleWordPick(line, j + 1)
  }

  /** The role guessed from the number of entries collected so far: P first, then D up to 4, C, and A from 9 on. */
  function FallbackRole(count: nat): (c: char)
    ensures IsRoleCode(c)
  {
    if count == 0 then 'P'
    else if count >= 9 then 'A'
    else if count <= 4 then 'D'
    else 'C'
  }

  /** One line in turn: the three shapes, then the guess for lines longer than two characters. */
  function ClassifyLine(line: string, count: nat): Option<Pick>
    requires '\n' !in line
  {
    if LeadingRole(line).Some? then LeadingRole(line)
    else if TrailingRole(line).Some? then TrailingRole(line)
    else if RoleWordPick(line, 0).Some? then RoleWordPick(line, 0)
    else if |line| > 2 then Some(Pick(FallbackRole(count), Strip(line)))
    else None
  }

  function OptionToSeq<T>(o: Option<T>): seq<T> {
    if o.Some? then [o.value] else []
  }

  /** The entries the line loop collects from `lines`. */
  function LinePicks(lines: seq<string>): seq<Pick>
    requires forall l :: l in lines ==> '\n' !in l
  {
    if lines == [] then []
    else
      var init := lines[..|lines| - 1];
      assert forall l :: l in init ==> l in lines;
      var before := LinePicks(init);
      before + OptionToSeq(ClassifyLine(lines[|lines| - 1], |before|))
  }

  /** Specification of parse_formazione_da_testo. */
  function LineupFromText(text: string): (r: Option<seq<Pick>>)
    ensures Strip(text) == [] ==> r == None
    ensures r.Some? ==> r.value != []
  {
    if Strip(text) == [] then None
    else
      var ms := FindTagged(text, 0);
      var tagged := if |ms| >= 11 then TaggedPicks(ms[..11]) else [];
      if |ms| >= 11 && |tagged| == 11 then Some(tagged)
      else
        var picks := LinePicks(HeaderFree(NonBlankLines(text)));
        if picks == [] then None else Some(picks)
  }

  // ===========================================================================
  // Properties of the line format
  // ===========================================================================

  /** Every rule that fires on a stripped, non-blank line gives a role code and a non-empty stripped name. */
  lemma ClassifyLineWellFormed(line: string, count: nat)
    requires '\n' !in line && line != [] && IsTrimmed(line)
    ensures ClassifyLine(line, count).Some? ==> WellFormed(ClassifyLine(line, count).value)
  {
    if LeadingRole(line).Some? {
      UpperRoleLetter(line[0]);
      var e := 1 + LeadingRun(line[1..], IsColonOrSpace);
      LeadingRunFacts(line[1..], IsColonOrSpace);
      if e < |line| {
        assert line[1..][e - 1] == line[e];
        StripNonBlank(line[e..], 0);
      } else {
        StripNonBlank(line[e - 1..], 0);
      }
    } else if TrailingRole(line).Some? {
      TrailingRoleFromShape(line, 1);
      var m :| 1 <= m < |line| && RoleSuffix(line[m..])
        && TrailingRole(line).value == Pick(UpperChar(SuffixLetter(line[m..])), Strip(line[..m]));
      UpperRoleLetter(SuffixLetter(line[m..]));
      StripNonBlank(line[..m], 0);
    } else if RoleWordPick(line, 0).Some? {
      RoleWordPickWellFormed(line, 0);
    } else if |line| > 2 {
      StripNonBlank(line, 0);
    }
  }

  /** Stripping a string with a non-space character gives a non-empty, stripped string. */
  lemma StripNonBlank(s: string, k: nat)
    requires k < |s| && !IsSpace(s[k])
    ensures Strip(s) != [] && IsTrimmed(Strip(s))
  {
    StripWhereFacts(s, IsSpace);
    StripIsTrimmed(s);
  }

  /** A role-word entry has a role code and a non-empty stripped name. */
  lemma {:induction false} RoleWordPickWellFormed(line: string, j: nat)
    requires j <= |RoleWords|
    ensures RoleWordPick(line, j).Some? ==> WellFormed(RoleWordPick(line, j).value)
    decreases |RoleWords| - j
  {
    if j < |RoleWords| {
      var word := RoleWords[j].0;
      if StartsWith(LowerAscii(line), word) && AfterRoleWord(line, word) != [] {
        StripIsTrimmed(StripWhere(line[|word|..], IsBlankOrColon));
      } else {
        RoleWordPickWellFormed(line, j + 1);
      }
    }
  }

  /** No role word leaves a name in a line of two characters or fewer. */
  lemma {:induction false} ShortLineNoRoleWord(line: string, j: nat)
    requires |line| <= 2 && j <= |RoleWords|
    ensures RoleWordPick(line, j) == None
    decreases |RoleWords| - j
  {
    if j < |RoleWords| {
      assert |RoleWords[j].0| >= 3;
      ShortLineNoRoleWord(line, j + 1);
    }
  }

  /** A line gives an entry exactly when it is longer than two characters. */
  lemma ClassifyLineSome(line: string, count: nat)
    requires '\n' !in line
    ensures ClassifyLine(line, count).Some? <==> |line| > 2
  {
    if |line| <= 2 {
      LeadingRoleShape(line);
      ShortLineNoRoleWord(line, 0);
      if line != [] {
        TrailingRoleFromShape(line, 1);
        assert forall m :: 1 <= m < |line| ==> !RoleSuffix(line[m..]);
      }
    }
  }

  /** Every entry of the line loop is well-formed, and there is one per line longer than two characters. */
  lemma {:induction false} LinePicksFacts(lines: seq<string>)
    requires forall l :: l in lines ==> l != [] && '\n' !in l && IsTrimmed(l)
    ensures |LinePicks(lines)| == |LongLines(lines)|
    ensures forall i :: 0 <= i < |LinePicks(lines)| ==> WellFormed(LinePicks(lines)[i])
  {
    if lines != [] {
      var init := lines[..|lines| - 1];
      var last := lines[|lines| - 1];
      assert lines == init + [last];
      assert forall l :: l in init ==> l in lines;
      LinePicksFacts(init);
      ClassifyLineWellFormed(last, |LinePicks(init)|);
      ClassifyLineSome(last, |LinePicks(init)|);
    }
  }

  /** The lines longer than two characters. */
  function LongLines(lines: seq<string>): seq<string> {
    if lines == [] then []
    else LongLines(lines[..|lines| - 1]) + (if |lines[|lines| - 1]| > 2 then [lines[|lines| - 1]] else [])
  }

  /** Whichever format is taken, every entry has a role code and a non-empty stripped name. */
  lemma LineupWellFormed(text: string)
    ensures LineupFromText(text).Some? ==>
      forall i :: 0 <= i < |LineupFromText(text).value| ==> WellFormed(LineupFromText(text).value[i])
  {
    if Strip(text) != [] {
      var ms := FindTagged(text, 0);
      if !(|ms| >= 11 && |TaggedPicks(ms[..11])| == 11) {
        LinePicksFacts(HeaderFree(NonBlankLines(text)));
      }
    }
  }

  /** The guessed roles of the first eleven entries form a 4-4-2: "PDDDDCCCCAA". */
  lemma FallbackFormation()
    ensures forall i: nat :: i < 11 ==> FallbackRole(i) == "PDDDDCCCCAA"[i]
    ensures forall i: nat :: i >= 11 ==> FallbackRole(i) == 'A'
  {
  }

  /** A tail that does not open with '-' or whitespace is no role suffix. */
  lemma NotRoleSuffix(line: string, m: nat)
    requires m < |line| && !IsDashOrSpace(line[m])
    ensures !RoleSuffix(line[m..])
  {
    assert line[m..][0] == line[m];
  }

  /** Split points that leave no role suffix are passed over. */
  lemma {:induction false} TrailingRoleSkip(line: string, n: nat, m: nat)
    requires 1 <= n <= m <= |line|
    requires forall q :: n <= q < m ==> !RoleSuffix(line[q..])
    ensures TrailingRoleFrom(line, n) == TrailingRoleFrom(line, m)
    decreases m - n
  {
    if n < m {
      TrailingRoleSkip(line, n + 1, m);
    }
  }

  /** Without '-' or whitespace in the line, the second rule cannot fire. */
  lemma NoSeparatorNoTrailingRole(line: string)
    requires '\n' !in line
    requires forall k :: 0 <= k < |line| ==> !IsDashOrSpace(line[k])
    ensures TrailingRole(line) == None
  {
    if line != [] {
      forall m | 1 <= m < |line|
        ensures !RoleSuffix(line[m..])
      {
        NotRoleSuffix(line, m);
      }
      TrailingRoleFromShape(line, 1);
    }
  }

  /** Each role word is at least three characters long and starts with a lower-case role letter. */
  lemma RoleWordsShape()
    ensures forall k :: 0 <= k < |RoleWords| ==>
      |RoleWords[k].0| >= 3 && RoleWords[k].0[0] in "pdca" && IsRoleCode(RoleWords[k].1)
  {
  }

  /** Every role word starts with a role letter, so a line starting otherwise matches none. */
  lemma {:induction false} RoleWordNeedsRoleInitial(line: string, j: nat)
    requires j <= |RoleWords|
    requires line == [] || LowerChar(line[0]) !in "pdca"
    ensures RoleWordPick(line, j) == None
    decreases |RoleWords| - j
  {
    if j < |RoleWords| {
      RoleWordsShape();
      var word := RoleWords[j].0;
      if |word| <= |line| {
        LowerStartsWith(line, word);
        assert LowerChar(line[0]) != word[0];
      }
      RoleWordNeedsRoleInitial(line, j + 1);
    }
  }

  /** The first rule: a role letter, the separator, the name. */
  lemma LeadingRoleExample()
    ensures ClassifyLine("P: Rossi", 0) == Some(Pick('P', "Rossi"))
    ensures ClassifyLine("P:: Rossi", 0) == Some(Pick('P', "Rossi"))
  {
    ExampleLineRossi("P: Rossi");
    DoubleColonLine("P:: Rossi");
  }

  lemma DoubleColonLine(line: string)
    requires line == "P:: Rossi"
    ensures ClassifyLine(line, 0) == Some(Pick('P', "Rossi"))
  {
    LeadingRoleNamed(line, 4, 0, "Rossi");
  }

  /**
   * A text of stripped, non-blank lines with no '(' and no header line is
   * read by the line loop alone: its entries are those of its lines.
   */
  lemma LineFormatText(lines: seq<string>)
    requires lines != []
    requires forall l :: l in lines ==> l != [] && '\n' !in l && '(' !in l && IsTrimmed(l) && !IsHeader(l)
    ensures LineupFromText(JoinWith(lines, '\n')) == if LinePicks(lines) == [] then None else Some(LinePicks(lines))
  {
    var text := JoinWith(lines, '\n');
    LineTextNoTag(lines);
    TaggedFormatRefused(text);
    NonBlankLinesJoin(lines);
  }

  /** Such a text is not blank and has no tagged match. */
  lemma LineTextNoTag(lines: seq<string>)
    requires lines != []
    requires forall l :: l in lines ==> l != [] && '(' !in l && !IsSpace(l[0])
    ensures Strip(JoinWith(lines, '\n')) != [] && FindTagged(JoinWith(lines, '\n'), 0) == []
  {
    var text := JoinWith(lines, '\n');
    assert lines[0] in lines && lines[|lines| - 1] in lines;
    JoinWithEnds(lines, '\n');
    StripNonBlank(text, 0);
    JoinWithKeepsOut(lines, '\n', '(');
    assert text[0..] == text;
    FindTaggedNoTag(text, 0);
  }

  /** Two lines of the first shape, one entry each, in order. */
  lemma LineTextExample()
    ensures LineupFromText("P: Rossi\nD: Bianchi") == Some([Pick('P', "Rossi"), Pick('D', "Bianchi")])
  {
    assert "P: Rossi" + "\n" + "D: Bianchi" == "P: Rossi\nD: Bianchi";
    LineTextExampleSteps("P: Rossi", "D: Bianchi");
  }

  lemma LineTextExampleSteps(a: string, b: string)
    requires a == "P: Rossi" && b == "D: Bianchi"
    ensures LineupFromText(a + "\n" + b) == Some([Pick('P', "Rossi"), Pick('D', "Bianchi")])
  {
    ExampleLinesNoHeader(a, b);
    ExampleLinePlain(a);
    ExampleLinePlain(b);
    ExampleLineRossi(a);
    ExampleLineBianchi(b);
    var first := OptionToSeq(ClassifyLine(a, 0));
    assert first == [Pick('P', "Rossi")];
    var second := OptionToSeq(ClassifyLine(b, |first|));
    assert second == [Pick('D', "Bianchi")];
    assert first + second == [Pick('P', "Rossi"), Pick('D', "Bianchi")];
    TwoLinesText(a, b);
  }

  /** A line of the example: non-blank, stripped, with no newline and no '('. */
  lemma ExampleLinePlain(l: string)
    requires l == "P: Rossi" || l == "D: Bianchi"
    ensures l != [] && '\n' !in l && '(' !in l && IsTrimmed(l)
  {
  }

  /** Two lines of the line format, joined by a newline: the entries of the first, then of the second. */
  lemma TwoLinesText(a: string, b: string)
    requires a != [] && '\n' !in a && '(' !in a && IsTrimmed(a) && !IsHeader(a)
    requires b != [] && '\n' !in b && '(' !in b && IsTrimmed(b) && !IsHeader(b)
    ensures var first := OptionToSeq(ClassifyLine(a, 0));
      var picks := first + OptionToSeq(ClassifyLine(b, |first|));
      LineupFromText(a + "\n" + b) == if picks == [] then None else Some(picks)
  {
    var lines := [a, b];
    assert JoinWith(lines, '\n') == a + "\n" + b by {
      assert lines[1..] == [b];
    }
    assert lines[..1] == [a];
    assert LinePicks([a]) == OptionToSeq(ClassifyLine(a, 0)) by {
      assert [a][..0] == [];
    }
    LineFormatText(lines);
  }

  lemma ExampleLinesNoHeader(a: string, b: string)
    requires a == "P: Rossi" && b == "D: Bianchi"
    ensures !IsHeader(a) && !IsHeader(b)
  {
    NotHeaderByPairs(a);
    NotHeaderByPairs(b);
  }

  lemma ExampleLineRossi(a: string)
    requires a == "P: Rossi"
    ensures ClassifyLine(a, 0) == Some(Pick('P', "Rossi"))
  {
    LeadingRoleNamed(a, 3, 0, "Rossi");
  }

  lemma ExampleLineBianchi(b: string)
    requires b == "D: Bianchi"
    ensures ClassifyLine(b, 1) == Some(Pick('D', "Bianchi"))
  {
    LeadingRoleNamed(b, 3, 1, "Bianchi");
  }

  lemma LeadingRoleNamed(line: string, e: nat, count: nat, name: string)
    requires '\n' !in line && 2 <= e < |line| && IsRoleLetter(line[0])
    requires SeparatorUpTo(line, e) && !IsColonOrSpace(line[e])
    requires line[e..] == name && IsTrimmed(name)
    ensures ClassifyLine(line, count) == Some(Pick(UpperChar(line[0]), name))
  {
    LeadingRoleAt(line, e, count);
    TrimmedStripsToItself(name);
  }

  /** A role letter, separators up to `e` and a name from `e` on: the first rule gives that name, stripped. */
  lemma LeadingRoleAt(line: string, e: nat, count: nat)
    requires '\n' !in line && 2 <= e < |line| && IsRoleLetter(line[0])
    requires SeparatorUpTo(line, e) && !IsColonOrSpace(line[e])
    ensures ClassifyLine(line, count) == Some(Pick(UpperChar(line[0]), Strip(line[e..])))
  {
    LeadingRoleShape(line);
  }

  /** The first two characters of a keyword stand, lower-cased, at `i` of `line`. */
  predicate KeywordPairAt(line: string, i: nat) {
    i + 1 < |line|
    && exists k :: 0 <= k < |HeaderKeywords| && LowerChar(line[i]) == HeaderKeywords[k][0] && LowerChar(line[i + 1]) == HeaderKeywords[k][1]
  }

  /** Every keyword has at least two characters, so a line where no keyword's first two stand together is no header. */
  lemma NotHeaderByPairs(line: string)
    requires forall i :: 0 <= i < |line| ==> !KeywordPairAt(line, i)
    ensures !IsHeader(line)
  {
    var lower := LowerAscii(line);
    forall k | 0 <= k < |HeaderKeywords|
      ensures !Contains(lower, HeaderKeywords[k])
    {
      var w := HeaderKeywords[k];
      assert |w| >= 2;
      forall i | 0 <= i <= |lower|
        ensures !StartsWith(lower[i..], w)
      {
        if i + 1 < |lower| {
          LowerAsciiAt(line, i);
          LowerAsciiAt(line, i + 1);
          assert !KeywordPairAt(line, i);
          assert !(lower[i] == w[0] && lower[i + 1] == w[1]);
          assert |w| <= |lower[i..]| ==> lower[i..][..|w|][1] == lower[i + 1];
        }
      }
      NotContains(lower, w);
    }
  }

  /** The second rule with a bracketed letter: the shortest name before the suffix. */
  lemma BracketedRoleExample()
    ensures ClassifyLine("Rossi (D)", 3) == Some(Pick('D', "Rossi"))
  {
    BracketedRoleExampleRules("Rossi (D)");
  }

  lemma BracketedRoleExampleRules(line: string)
    requires line == "Rossi (D)"
    ensures LeadingRole(line) == None
    ensures TrailingRole(line) == Some(Pick('D', "Rossi"))
  {
    assert line[..5] == "Rossi";
    TrimmedStripsToItself("Rossi");
    LeadingRunIs(line[5..], IsDashOrSpace, 1);
    assert TrailingRoleFrom(line, 5) == Some(Pick('D', "Rossi"));
    forall q | 1 <= q < 5
      ensures !RoleSuffix(line[q..])
    {
      NotRoleSuffix(line, q);
    }
    TrailingRoleSkip(line, 1, 5);
  }

  /** The second rule with a dash: the letter is upper-cased. */
  lemma DashedRoleExample()
    ensures ClassifyLine("Bianchi - a", 5) == Some(Pick('A', "Bianchi"))
  {
    DashedRoleExampleRules("Bianchi - a");
  }

  lemma DashedRoleExampleRules(line: string)
    requires line == "Bianchi - a"
    ensures LeadingRole(line) == None
    ensures TrailingRole(line) == Some(Pick('A', "Bianchi"))
  {
    assert line[..7] == "Bianchi";
    TrimmedStripsToItself("Bianchi");
    LeadingRunIs(line[7..], IsDashOrSpace, 3);
    assert TrailingRoleFrom(line, 7) == Some(Pick('A', "Bianchi"));
    forall q | 1 <= q < 7
      ensures !RoleSuffix(line[q..])
    {
      NotRoleSuffix(line, q);
    }
    TrailingRoleSkip(line, 1, 7);
  }

  /** The role words: the colon after the word is dropped along with blanks. */
  lemma RoleWordExample()
    ensures ClassifyLine("Portiere:Sommer", 5) == Some(Pick('P', "Sommer"))
  {
    RoleWordExampleRules("Portiere:Sommer");
  }

  lemma RoleWordExampleRules(line: string)
    requires line == "Portiere:Sommer"
    ensures LeadingRole(line) == None && TrailingRole(line) == None
    ensures RoleWordPick(line, 0) == Some(Pick('P', "Sommer"))
  {
    LeadingRunIs(line[1..], IsColonOrSpace, 0);
    NoSeparatorNoTrailingRole(line);
    RoleWordExampleName(line);
    RoleWordExampleWord(line);
  }

  lemma RoleWordExampleWord(line: string)
    requires line == "Portiere:Sommer"
    ensures StartsWith(LowerAscii(line), RoleWords[0].0)
  {
    LowerStartsWith(line, "portiere");
  }

  lemma RoleWordExampleName(line: string)
    requires line == "Portiere:Sommer"
    ensures AfterRoleWord(line, "portiere") == "Sommer"
  {
    assert line[8..] == ":Sommer";
    LeadingRunIs(line[8..], IsBlankOrColon, 1);
    assert line[8..][1..] == "Sommer";
    StripWhereKeepsTrimmed("Sommer", IsBlankOrColon);
    TrimmedStripsToItself("Sommer");
  }

  /** No rule fires: the role is guessed from the count, the line stripped. */
  lemma FallbackExample()
    ensures ClassifyLine("Lautaro", 9) == Some(Pick('A', "Lautaro"))
  {
    FallbackExampleRules("Lautaro");
  }

  lemma FallbackExampleRules(line: string)
    requires line == "Lautaro"
    ensures LeadingRole(line) == None && TrailingRole(line) == None && RoleWordPick(line, 0) == None
    ensures Strip(line) == line
  {
    NoSeparatorNoTrailingRole(line);
    RoleWordNeedsRoleInitial(line, 0);
    TrimmedStripsToItself(line);
  }

  /**
   * A bare "Portiere" leaves no name after the first word, so the search
   * goes on to "por" and keeps the rest of the word as the name.
   */
  lemma PortiereQuirk(count: nat)
    ensures ClassifyLine("Portiere", count) == Some(Pick('P', "tiere"))
  {
    PortiereQuirkRules("Portiere");
  }

  lemma PortiereQuirkRules(line: string)
    requires line == "Portiere"
    ensures LeadingRole(line) == None && TrailingRole(line) == None
    ensures RoleWordPick(line, 0) == Some(Pick('P', "tiere"))
  {
    LeadingRunIs(line[1..], IsColonOrSpace, 0);
    NoSeparatorNoTrailingRole(line);
    PortiereQuirkWords(line);
  }

  lemma PortiereQuirkWords(line: string)
    requires line == "Portiere"
    ensures RoleWordPick(line, 0) == Some(Pick('P', "tiere"))
  {
    LowerStartsWith(line, "portiere");
    LowerStartsWith(line, "por");
    assert line[8..] == [];
    assert AfterRoleWord(line, "portiere") == [];
    assert line[3..] == "tiere";
    StripWhereKeepsTrimmed("tiere", IsBlankOrColon);
    TrimmedStripsToItself("tiere");
    assert AfterRoleWord(line, "por") == "tiere";
  }

  // ===========================================================================
  // The parser as the source runs it
  // ===========================================================================

  /**
   * The role-word loop with its `for ... else`: the first word that starts
   * the lower-cased line and leaves a name.
   */
  method MatchRoleWord(line: string) returns (pick: Option<Pick>)
    ensures pick == RoleWordPick(line, 0)
  {
    var lower := LowerAscii(line);
    var j := 0;
    while j < |RoleWords|
      invariant 0 <= j <= |RoleWords|
      invariant RoleWordPick(line, j) == RoleWordPick(line, 0)
    {
      var word := RoleWords[j].0;
      if StartsWith(lower, word) {
        var name := AfterRoleWord(line, word);
        if name != [] {
          return Some(Pick(RoleWords[j].1, name));
        }
      }
      j := j + 1;
    }
    return None;
  }

  /** The body of the line loop for one line: the two patterns, the role words, then the guess. */
  method ParseLine(line: string, count: nat) returns (pick: Option<Pick>)
    requires '\n' !in line
    ensures pick == ClassifyLine(line, count)
  {
    pick := LeadingRole(line);
    if pick.Some? {
      return;
    }
    pick := TrailingRole(line);
    if pick.Some? {
      return;
    }
    pick := MatchRoleWord(line);
    if pick.Some? {
      return;
    }
    if |line| > 2 {
      var role;
      if count == 0 {
        role := 'P';
      } else if count >= 9 {
        role := 'A';
      } else if count <= 4 {
        role := 'D';
      } else {
        role := 'C';
      }
      pick := Some(Pick(role, Strip(line)));
    }
  }

  /** The tagged attempt: the first eleven matches, each name cleaned, empty names skipped. */
  method TakeTagged(matches: seq<(char, string)>) returns (players: seq<Pick>)
    requires |matches| >= 11
    requires forall m :: m in matches ==> IsRoleLetter(m.0)
    ensures players == TaggedPicks(matches[..11])
  {
    players := [];
    for i := 0 to 11
      invariant players == KeepNamed(TaggedCandidates(matches[..i]))
    {
      TaggedCandidatesStep(matches, i);
      var name := CleanName(matches[i].1);
      if name != [] {
        players := players + [Pick(UpperChar(matches[i].0), name)];
      }
    }
  }

  /** One more match adds its entry when its cleaned name is not empty. */
  lemma TaggedCandidatesStep(ms: seq<(char, string)>, i: nat)
    requires forall m :: m in ms ==> IsRoleLetter(m.0)
    requires i < |ms|
    ensures KeepNamed(TaggedCandidates(ms[..i + 1])) ==
      KeepNamed(TaggedCandidates(ms[..i]))
        + (if CleanName(ms[i].1) != [] then [Pick(UpperChar(ms[i].0), CleanName(ms[i].1))] else [])
  {
    assert ms[..i + 1][..i] == ms[..i];
    assert forall m :: m in ms[..i + 1] ==> m in ms;
    var cs := TaggedCandidates(ms[..i + 1]);
    assert cs[..i] == TaggedCandidates(ms[..i]);
  }

  /** The header filter: the lines in which no keyword occurs. */
  method DropHeaders(lines: seq<string>) returns (filtered: seq<string>)
    ensures filtered == HeaderFree(lines)
  {
    filtered := [];
    for i := 0 to |lines|
      invariant filtered == HeaderFree(lines[..i])
    {
      assert lines[..i + 1][..i] == lines[..i];
      if !IsHeader(lines[i]) {
        filtered := filtered + [lines[i]];
      }
    }
    assert lines[..|lines|] == lines;
  }

  /** The line loop: each line classified with the number of entries found so far. */
  method CollectPicks(lines: seq<string>) returns (players: seq<Pick>)
    requires forall l :: l in lines ==> '\n' !in l
    ensures players == LinePicks(lines)
  {
    players := [];
    for i := 0 to |lines|
      invariant players == LinePicks(lines[..i])
    {
      assert lines[..i + 1][..i] == lines[..i];
      assert lines[i] in lines;
      var pick := ParseLine(lines[i], |players|);
      if pick.Some? {
        players := players + [pick.value];
      }
    }
    assert lines[..|lines|] == lines;
  }

  /** parse_formazione_da_testo: the tagged attempt, the header filter, then the line loop. */
  method ParseLineupText(text: string) returns (r: Option<seq<Pick>>)
    ensures r == LineupFromText(text)
  {
    if Strip(text) == [] {
      return None;
    }
    var matches := FindTagged(text, 0);
    if |matches| >= 11 {
      var players := TakeTagged(matches);
      if |players| == 11 {
        return Some(players);
      }
    }
    var filtered := DropHeaders(NonBlankLines(text));
    var players := CollectPicks(filtered);
    if players == [] {
      r := None;
    } else {
      r := Some(players);
    }
  }

}
