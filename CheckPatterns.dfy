/**
 * The regular expressions that the four `validate()` methods of
 * skills/skill-quality-validation/scripts/validate_skill.py apply to a document, each
 * written out as the scan Python's engine performs: where a match may start, how far
 * each greedy part reaches, and where `findall` resumes after a match.
 */
module CheckPatterns {
  import opened Text
  import opened Validator

  // ---------------------------------------------------------------------------
  // Runs of characters of one class
  // ---------------------------------------------------------------------------

  /** Length of the leading `\s*` run. */
  function SpaceRun(s: string): (n: nat)
    ensures n <= |s| && AllSpace(s[..n])
    ensures n < |s| ==> !IsSpace(s[n])
  {
    |s| - |LStrip(s)|
  }

  predicate IsQuote(c: char) { c == '"' || c == '\'' }

  /** A character of the class `[^"'\n]`. */
  predicate IsValueChar(c: char) { !IsQuote(c) && c != '\n' }

  function ValueRun(s: string): (n: nat)
    ensures n <= |s|
    ensures forall k | 0 <= k < n :: IsValueChar(s[k])
    ensures n < |s| ==> !IsValueChar(s[n])
  {
    if |s| > 0 && IsValueChar(s[0]) then 1 + ValueRun(s[1..]) else 0
  }

  /** Length of the leading run of `[^*]`. */
  function NonStarRun(s: string): (n: nat)
    ensures n <= |s|
    ensures forall k | 0 <= k < n :: s[k] != '*'
    ensures n < |s| ==> s[n] == '*'
  {
    if |s| > 0 && s[0] != '*' then 1 + NonStarRun(s[1..]) else 0
  }

  /** Length of the leading run of `[A-Z]`. */
  function UpperRun(s: string): (n: nat)
    ensures n <= |s|
    ensures forall k | 0 <= k < n :: IsAsciiUpper(s[k])
    ensures n < |s| ==> !IsAsciiUpper(s[n])
  {
    if |s| > 0 && IsAsciiUpper(s[0]) then 1 + UpperRun(s[1..]) else 0
  }

  /** Length of the leading run of `[a-z]`. */
  function LowerRun(s: string): (n: nat)
    ensures n <= |s|
    ensures forall k | 0 <= k < n :: IsAsciiLower(s[k])
    ensures n < |s| ==> !IsAsciiLower(s[n])
  {
    if |s| > 0 && IsAsciiLower(s[0]) then 1 + LowerRun(s[1..]) else 0
  }

  /** Length of the leading run of `\w`. */
  function WordRun(s: string): (n: nat)
    ensures n <= |s|
    ensures forall k | 0 <= k < n :: IsWordChar(s[k])
    ensures n < |s| ==> !IsWordChar(s[n])
  {
    if |s| > 0 && IsWordChar(s[0]) then 1 + WordRun(s[1..]) else 0
  }

  // ---------------------------------------------------------------------------
  // Frontmatter fields: re.search(r'<key>\s*["\']?([^"\'\n]+)["\']?', fm, IGNORECASE)
  // ---------------------------------------------------------------------------

  /** The last position before `w` that does not hold a newline. */
  function LastNonNewline(s: string, w: nat): (r: Option<nat>)
    requires w <= |s|
    ensures r.Some? ==> r.value < w && s[r.value] != '\n'
    ensures r.Some? ==> forall k | r.value < k < w :: s[k] == '\n'
    ensures r.None? ==> forall k | 0 <= k < w :: s[k] == '\n'
  {
    if w == 0 then None
    else if s[w - 1] != '\n' then Some(w - 1)
    else LastNonNewline(s, w - 1)
  }

  /** The group `([^"'\n]+)` of `\s*["']?([^"'\n]+)` matched at the start of `rest`.
      The greedy `\s*` first takes the whole whitespace run; an optional quote may follow.
      When neither leaves a value character next, `\s*` gives back whitespace until a
      character other than a newline can start the group, which is then that one
      whitespace character. */
  function ValueAfterKey(rest: string): (r: Option<string>)
    ensures r.Some? ==> |r.value| > 0
    ensures r.Some? ==> forall k | 0 <= k < |r.value| :: IsValueChar(r.value[k])
  {
    var w := SpaceRun(rest);
    if w < |rest| && IsValueChar(rest[w]) then
      Some(rest[w..w + ValueRun(rest[w..])])
    else if w + 1 < |rest| && IsQuote(rest[w]) && IsValueChar(rest[w + 1]) then
      Some(rest[w + 1..w + 1 + ValueRun(rest[w + 1..])])
    else
      match LastNonNewline(rest, w)
      case Some(k) => Some([rest[k]])
      case None => None
  }

  /** The capture when the pattern is tried at position `i` of `s`. */
  function MatchAt(s: string, key: string, i: nat): Option<string> {
    if OccursAt(Lower(s), key, i) then ValueAfterKey(s[i + |key|..]) else None
  }

  /** The value captured after the leftmost occurrence of `key` (ASCII case ignored)
      at which the whole pattern matches. `key` is written in lower case. */
  function FieldValue(s: string, key: string): Option<string> {
    FieldValueFrom(s, key, 0)
  }

  function FieldValueFrom(s: string, key: string, i: nat): Option<string>
    requires i <= |s|
    decreases |s| - i
  {
    var m := MatchAt(s, key, i);
    if m.Some? then m
    else if i == |s| then None
    else FieldValueFrom(s, key, i + 1)
  }

  /** A capture returned by the search is the capture of the first position where
      the pattern matches. */
  lemma {:induction false} FieldValueSpec(s: string, key: string, i: nat)
    requires i <= |s|
    ensures var r := FieldValueFrom(s, key, i);
      r.Some? ==> exists j | i <= j <= |s| ::
        MatchAt(s, key, j) == r && forall k | i <= k < j :: MatchAt(s, key, k).None?
    decreases |s| - i
  {
    var r := FieldValueFrom(s, key, i);
    if MatchAt(s, key, i).Some? {
      FirstMatchHere(s, key, i, r);
    } else if i < |s| {
      assert r == FieldValueFrom(s, key, i + 1);
      FieldValueSpec(s, key, i + 1);
      if r.Some? {
        var j :| i + 1 <= j <= |s| && MatchAt(s, key, j) == r && forall k | i + 1 <= k < j :: MatchAt(s, key, k).None?;
        FirstMatchLater(s, key, i, j, r);
      }
    }
  }

  /** A match at the starting position is the first one. */
  lemma {:induction false} FirstMatchHere(s: string, key: string, i: nat, r: Option<string>)
    requires i <= |s| && MatchAt(s, key, i) == r
    ensures exists j | i <= j <= |s| :: MatchAt(s, key, j) == r && forall k | i <= k < j :: MatchAt(s, key, k).None?
  {
    assert MatchAt(s, key, i) == r;
  }

  /** A first match after position `i + 1` is also the first one after `i` when `i` fails. */
  lemma {:induction false} FirstMatchLater(s: string, key: string, i: nat, j: nat, r: Option<string>)
    requires i < j <= |s| && MatchAt(s, key, i).None? && MatchAt(s, key, j) == r
    requires forall k | i + 1 <= k < j :: MatchAt(s, key, k).None?
    ensures exists j' | i <= j' <= |s| :: MatchAt(s, key, j') == r && forall k | i <= k < j' :: MatchAt(s, key, k).None?
  {
    assert forall k | i <= k < j :: MatchAt(s, key, k).None?;
  }

  /** The search finds nothing only when the pattern matches at no position. */
  lemma {:induction false} FieldValueNone(s: string, key: string, i: nat)
    requires i <= |s| && FieldValueFrom(s, key, i).None?
    ensures forall j | i <= j <= |s| :: MatchAt(s, key, j).None?
    decreases |s| - i
  {
    assert MatchAt(s, key, i).None?;
    if i < |s| {
      assert FieldValueFrom(s, key, i + 1).None?;
      FieldValueNone(s, key, i + 1);
      forall j | i <= j <= |s| ensures MatchAt(s, key, j).None? {
        if j > i { assert i + 1 <= j <= |s|; }
      }
    }
  }

  /** A frontmatter that starts with the line `key value`, where `value` is plain text
      that begins with a non-blank, yields exactly `value`. */
  lemma {:induction false} FieldValueOfFirstLine(key: string, value: string, more: string)
    requires Lower(key) == key && |value| > 0 && !IsSpace(value[0])
    requires forall k | 0 <= k < |value| :: IsValueChar(value[k])
    ensures FieldValue(key + " " + value + "\n" + more, key) == Some(value)
  {
    var s := key + " " + value + "\n" + more;
    assert Lower(s)[..|key|] == Lower(key) by {
      LowerSlice(s, 0, |key|);
      assert s[..|key|] == key;
    }
    assert OccursAt(Lower(s), key, 0);
    assert s[|key|..] == " " + value + "\n" + more;
    ValueAfterOneSpace(value, more);
    assert MatchAt(s, key, 0) == Some(value);
  }

  lemma {:induction false} ValueAfterOneSpace(value: string, more: string)
    requires |value| > 0 && !IsSpace(value[0])
    requires forall k | 0 <= k < |value| :: IsValueChar(value[k])
    ensures ValueAfterKey(" " + value + "\n" + more) == Some(value)
  {
    var rest := " " + value + "\n" + more;
    assert rest[1..] == value + "\n" + more;
    assert SpaceRun(rest) == 1 by {
      assert LStrip(rest) == LStrip(rest[1..]);
    }
    var tail := rest[1..];
    assert ValueRun(tail) == |value| by {
      ValueRunStops(value, "\n" + more);
      assert tail == value + ("\n" + more);
    }
    assert rest[1..1 + |value|] == value;
  }

  /** A value run over `v` stops at a newline that follows it. */
  lemma {:induction false} ValueRunStops(v: string, after: string)
    requires forall k | 0 <= k < |v| :: IsValueChar(v[k])
    requires |after| > 0 && after[0] == '\n'
    ensures ValueRun(v + after) == |v|
  {
    if |v| > 0 {
      assert (v + after)[1..] == v[1..] + after;
      ValueRunStops(v[1..], after);
    } else {
      assert v + after == after;
    }
  }

  // ---------------------------------------------------------------------------
  // The first H2 title: re.search(r'^##\s+(.+)$', content, re.MULTILINE).group(1)
  // ---------------------------------------------------------------------------

  /** A line where `^##\s+(.+)$` matches: `##`, whitespace, and at least one more
      character. */
  predicate IsTitledH2(line: string) {
    IsH2Start(line) && |line| >= 4
  }

  /** The group: what follows the whitespace run, or, when only whitespace follows, the
      last whitespace character (`\s+` gives one back so that `.+` can match). */
  function H2Title(line: string): string
    requires IsTitledH2(line)
  {
    var a := AfterH2Marker(line);
    if |a| > 0 then a else [line[|line| - 1]]
  }

  function FirstH2Title(content: string): Option<string> {
    var lines := Lines(content);
    match FindLine(lines, 0, IsTitledH2)
    case Some(i) => Some(H2Title(lines[i]))
    case None => None
  }

  // ---------------------------------------------------------------------------
  // Scenarios: re.findall(r'^[-*]\s+(.+)$', section, re.MULTILINE)
  //            re.findall(r'^[-*]\s+([A-Z][a-z]+ing)\s', section, re.MULTILINE)
  // ---------------------------------------------------------------------------

  predicate IsBulletMark(c: char) { c == '-' || c == '*' }

  /** A line where `^[-*]\s+(.+)$` matches. */
  predicate IsBullet(line: string) {
    |line| >= 3 && IsBulletMark(line[0]) && IsSpace(line[1])
  }

  function BulletText(line: string): string
    requires IsBullet(line)
  {
    var a := LStrip(line[1..]);
    if |a| > 0 then a else [line[|line| - 1]]
  }

  /** The captured scenario texts, in order. */
  function Scenarios(lines: seq<string>): (r: seq<string>)
    ensures |r| == CountWhere(lines, IsBullet)
  {
    if |lines| == 0 then []
    else if IsBullet(lines[0]) then [BulletText(lines[0])] + Scenarios(lines[1..])
    else Scenarios(lines[1..])
  }

  /** A line where `^[-*]\s+([A-Z][a-z]+ing)\s` matches. The trailing `\s` may be the
      newline that ends the line when another line follows. */
  predicate IsVerbBullet(line: string, newlineFollows: bool) {
    |line| >= 2 && IsBulletMark(line[0]) && IsSpace(line[1]) &&
    var a := LStrip(line[1..]);
    |a| >= 1 && IsAsciiUpper(a[0]) &&
    var m := LowerRun(a[1..]);
    m >= 4 && a[m - 2..m + 1] == "ing" &&
    (if m + 1 < |a| then IsSpace(a[m + 1]) else newlineFollows)
  }

  function VerbBulletCount(lines: seq<string>): nat {
    if |lines| == 0 then 0
    else (if IsVerbBullet(lines[0], |lines| > 1) then 1 else 0) + VerbBulletCount(lines[1..])
  }

  /** Every verb line is a scenario line. */
  lemma {:induction false} VerbBulletIsBullet(line: string, newlineFollows: bool)
    requires IsVerbBullet(line, newlineFollows)
    ensures IsBullet(line)
  {
    var a := LStrip(line[1..]);
    assert |a| <= |line| - 1;
  }

  /** So there are never more verb scenarios than scenarios. */
  lemma {:induction false} VerbBulletsAtMostScenarios(lines: seq<string>)
    ensures VerbBulletCount(lines) <= |Scenarios(lines)|
  {
    if |lines| > 0 {
      if IsVerbBullet(lines[0], |lines| > 1) {
        VerbBulletIsBullet(lines[0], |lines| > 1);
      }
      VerbBulletsAtMostScenarios(lines[1..]);
    }
  }

  // ---------------------------------------------------------------------------
  // Bold leads: re.findall(r'^\*\*[^*]+\*\*', principles, re.MULTILINE)
  // ---------------------------------------------------------------------------

  /** `**`, a non-empty run without `*` (newlines included), then `**`. */
  predicate BoldAt(s: string, p: nat) {
    OccursAt(s, "**", p) && p + 2 <= |s| &&
    var m := NonStarRun(s[p + 2..]);
    m >= 1 && OccursAt(s, "**", p + 2 + m)
  }

  function BoldEnd(s: string, p: nat): (e: nat)
    requires BoldAt(s, p)
    ensures p < e <= |s|
  {
    p + 4 + NonStarRun(s[p + 2..])
  }

  predicate AtLineStart(s: string, p: nat) {
    p == 0 || (p <= |s| && s[p - 1] == '\n')
  }

  function BoldLeadsFrom(s: string, p: nat): nat
    decreases |s| - p
  {
    if p >= |s| then 0
    else if AtLineStart(s, p) && BoldAt(s, p) then 1 + BoldLeadsFrom(s, BoldEnd(s, p))
    else BoldLeadsFrom(s, p + 1)
  }

  /** The number of principles: bold runs that start a line. */
  function BoldLeadCount(s: string): nat {
    BoldLeadsFrom(s, 0)
  }

  // ---------------------------------------------------------------------------
  // Definitions: re.findall(r'\*\*[A-Z][^*]+\*\*:', content)
  // ---------------------------------------------------------------------------

  predicate DefinitionAt(s: string, p: nat) {
    OccursAt(s, "**", p) && p + 3 <= |s| && IsAsciiUpper(s[p + 2]) &&
    var m := NonStarRun(s[p + 3..]);
    m >= 1 && OccursAt(s, "**:", p + 3 + m)
  }

  function DefinitionsFrom(s: string, p: nat): nat
    decreases |s| - p
  {
    if p >= |s| then 0
    else if DefinitionAt(s, p) then 1 + DefinitionsFrom(s, p + 6 + NonStarRun(s[p + 3..]))
    else DefinitionsFrom(s, p + 1)
  }

  function DefinitionCount(s: string): nat {
    DefinitionsFrom(s, 0)
  }

  // ---------------------------------------------------------------------------
  // Acronyms: re.findall(r'\b[A-Z]{2,}\b\s*\([^)]+\)|\([A-Z]{2,}\)', content)
  // ---------------------------------------------------------------------------

  /** `ACRONYM (Full Form)`: a whole word of two or more capitals, optional
      whitespace, then parentheses around at least one character. */
  predicate AcronymThenExpansionAt(s: string, p: nat) {
    p < |s| && (p == 0 || !IsWordChar(s[p - 1])) &&
    var u := UpperRun(s[p..]);
    u >= 2 && (p + u == |s| || !IsWordChar(s[p + u])) &&
    var q := p + u + SpaceRun(s[p + u..]);
    q + 1 < |s| && s[q] == '(' && s[q + 1] != ')' && ')' in s[q + 2..]
  }

  /** `(ACRONYM)` */
  predicate ParenthesisedAcronymAt(s: string, p: nat) {
    p < |s| && s[p] == '(' &&
    var u := UpperRun(s[p + 1..]);
    u >= 2 && p + 1 + u < |s| && s[p + 1 + u] == ')'
  }

  predicate HasExpandedAcronym(s: string) {
    exists p | 0 <= p < |s| :: AcronymThenExpansionAt(s, p) || ParenthesisedAcronymAt(s, p)
  }

  // ---------------------------------------------------------------------------
  // Tables: re.search(r'\|[^|]+\|[^|]+\|', text) and re.findall(r'(\|[^\n]+\|\n)+', content)
  // ---------------------------------------------------------------------------

  /** Three bars with at least one non-bar character between each two. */
  predicate HasTwoCells(s: string) {
    exists i, j, k | 0 <= i < j < k < |s| ::
      && s[i] == '|' && s[j] == '|' && s[k] == '|'
      && i + 1 < j && j + 1 < k
      && (forall m | i < m < j :: s[m] != '|')
      && (forall m | j < m < k :: s[m] != '|')
  }

  /** A line where a table match can begin: its first bar lies at least two characters
      before its end and it ends in a bar. */
  predicate IsTableOpener(line: string) {
    |line| >= 3 && line[|line| - 1] == '|' && exists f | 0 <= f <= |line| - 3 :: line[f] == '|'
  }

  /** A line the repeated group `\|[^\n]+\|\n` can cover whole. */
  predicate IsTableRow(line: string) {
    |line| >= 3 && line[0] == '|' && line[|line| - 1] == '|'
  }

  /** The first bar of a line that holds one. */
  function FirstBar(line: string): (f: nat)
    requires '|' in line
    ensures f < |line| && line[f] == '|'
    ensures forall k | 0 <= k < f :: line[k] != '|'
  {
    if line[0] == '|' then 0 else 1 + FirstBar(line[1..])
  }

  /** The end of a run of rows that starts at `j`: rows must be followed by a newline, so
      the last line never is one. */
  function RunEnd(lines: seq<string>, j: nat): (e: nat)
    requires j < |lines|
    ensures j <= e < |lines|
    ensures forall k | j <= k < e :: IsTableRow(lines[k])
    ensures e < |lines| - 1 ==> !IsTableRow(lines[e])
    decreases |lines| - j
  {
    if j == |lines| - 1 || !IsTableRow(lines[j]) then j else RunEnd(lines, j + 1)
  }

  /** What `findall` returns for each run: the group holds its LAST repetition only, that
      is the last row of the run (from the first bar when the run is one line) and its
      newline. */
  function TablesFrom(lines: seq<string>, k: nat): (r: seq<string>)
    requires NoNewlines(lines)
    ensures forall t | t in r :: |t| > 0 && t[|t| - 1] == '\n' && NoNewline(t[..|t| - 1])
    decreases |lines| - k
  {
    if k + 1 >= |lines| then []
    else if IsTableOpener(lines[k]) then
      var e := RunEnd(lines, k + 1);
      var last := if e == k + 1 then lines[k][FirstBar(lines[k])..] else lines[e - 1];
      assert NoNewline(last) by {
        assert NoNewline(lines[k]) && NoNewline(lines[e - 1]);
        assert forall m | 0 <= m < |last| :: last[m] in lines[k] || last[m] in lines[e - 1];
      }
      [last + "\n"] + TablesFrom(lines, e)
    else TablesFrom(lines, k + 1)
  }

  function Tables(content: string): seq<string> {
    var lines := Lines(content);
    assert NoNewlines(lines);
    TablesFrom(lines, 0)
  }

  // ---------------------------------------------------------------------------
  // Code blocks: re.findall(r'```[\w]*\n(.*?)```', content, re.DOTALL)
  // ---------------------------------------------------------------------------

  /** Code block bodies found scanning from `p`: three backticks, a word run, a newline,
      and the text up to the next three backticks. An opening with no closing matches
      nothing and the scan moves on by one character. */
  function CodeBlocksFrom(s: string, p: nat): (r: seq<string>)
    ensures forall b | b in r :: exists x, y | p <= x <= y <= |s| :: b == s[x..y]
    decreases |s| - p
  {
    if p + 3 > |s| then []
    else if OccursAt(s, "```", p) then
      var q := p + 3 + WordRun(s[p + 3..]);
      if q < |s| && s[q] == '\n' then
        match FindFrom(s, "```", q + 1)
        case Some(e) => [s[q + 1..e]] + CodeBlocksFrom(s, e + 3)
        case None => CodeBlocksFrom(s, p + 1)
      else CodeBlocksFrom(s, p + 1)
    else CodeBlocksFrom(s, p + 1)
  }

  function CodeBlocks(content: string): seq<string> {
    CodeBlocksFrom(content, 0)
  }

  // ---------------------------------------------------------------------------
  // Line classes of the language checks
  // ---------------------------------------------------------------------------

  /** A prose line: not blank, and not a heading, fence or table line. */
  predicate IsProse(line: string) {
    |Strip(line)| > 0 && !StartsWith(line, "#") && !StartsWith(line, "```") && !StartsWith(line, "|")
  }

  predicate IsLongProse(line: string) {
    IsProse(line) && |line| > 200
  }

  const ImperativeVerbs: seq<string> := ["Use", "Implement", "Create", "Define", "Apply", "Avoid", "Consider"]

  /** A line where `re.match(r'^[-*]\s+(Use|Implement|...|Consider)', line)` succeeds. */
  predicate IsImperativeBullet(line: string) {
    |line| >= 2 && IsBulletMark(line[0]) && IsSpace(line[1]) &&
    FirstPrefix(LStrip(line[1..]), ImperativeVerbs).Some?
  }

  /** `^#{2,3}\s+` */
  predicate IsH2OrH3(line: string) {
    IsH2Start(line) || (|line| > 3 && line[..3] == "###" && IsSpace(line[3]))
  }

  /** `^###\s+.*Overview` */
  predicate IsOverviewHeading(line: string) {
    |line| > 3 && line[..3] == "###" && IsSpace(line[3]) && Contains(line[4..], "Overview")
  }

  // ---------------------------------------------------------------------------
  // Word and term counts
  // ---------------------------------------------------------------------------

  /** `\bwhy\b` in lower-cased text, counted from position `i`. */
  function WhyFrom(t: string, i: nat): nat
    decreases |t| - i
  {
    if i + 3 > |t| then 0
    else
      (if OccursAt(t, "why", i) && (i == 0 || !IsWordChar(t[i - 1])) &&
          (i + 3 == |t| || !IsWordChar(t[i + 3])) then 1 else 0)
      + WhyFrom(t, i + 1)
  }

  function WhyCount(content: string): nat {
    WhyFrom(Lower(content), 0)
  }

  /** `sum(s.count(t) for t in terms)` */
  function SumCounts(s: string, terms: seq<string>): nat {
    if |terms| == 0 then 0 else CountAlt(s, [terms[0]]) + SumCounts(s, terms[1..])
  }

  /** `sum(1 for t in terms if t in s)` */
  function TermsPresent(s: string, terms: seq<string>): (r: nat)
    ensures r <= |terms|
  {
    if |terms| == 0 then 0 else (if Contains(s, terms[0]) then 1 else 0) + TermsPresent(s, terms[1..])
  }
}
