/**
 * The text helpers of `SkillValidator` in
 * skills/skill-quality-validation/scripts/validate_skill.py:
 *  - `count_sections`: deletes every stretch from a line that starts with three
 *    backticks to the next such line, then counts matching lines;
 *  - `extract_frontmatter`: the text between a leading `---` line and the next `---` line;
 *  - `get_section_content`: the body under the first `## <prefix>` heading up to the next
 *    `## ` line;
 *  - `has_section`: some `## ...` line mentions a title.
 *
 * A document is the list of its lines, `content.split('\n')`; each regular expression
 * of the source becomes a predicate on one line.
 */
module Validator {
  import opened Text

  /** The number of lines for which `p` holds. */
  function CountWhere(lines: seq<string>, p: string -> bool): (r: nat)
    ensures r <= |lines|
  {
    if |lines| == 0 then 0 else (if p(lines[0]) then 1 else 0) + CountWhere(lines[1..], p)
  }

  lemma {:induction false} CountWhereAppend(a: seq<string>, b: seq<string>, p: string -> bool)
    ensures CountWhere(a + b, p) == CountWhere(a, p) + CountWhere(b, p)
  {
    if |a| == 0 {
      assert a + b == b;
    } else {
      assert (a + b)[0] == a[0] && (a + b)[1..] == a[1..] + b;
      CountWhereAppend(a[1..], b, p);
    }
  }

  /** The first index at or after `from` whose line satisfies `p`. */
  function FindLine(lines: seq<string>, from: nat, p: string -> bool): (r: Option<nat>)
    requires from <= |lines|
    ensures r.Some? ==> from <= r.value < |lines| && p(lines[r.value])
    ensures r.Some? ==> forall k | from <= k < r.value :: !p(lines[k])
    ensures r.None? ==> forall k | from <= k < |lines| :: !p(lines[k])
    decreases |lines| - from
  {
    if from == |lines| then None
    else if p(lines[from]) then Some(from)
    else FindLine(lines, from + 1, p)
  }

  // ---------------------------------------------------------------------------
  // Fence stripping: re.sub(r'^```.*?^```', '', content, flags=DOTALL | MULTILINE)
  // ---------------------------------------------------------------------------

  /** A line the pattern `^```` matches at. */
  predicate IsFenceLine(line: string) {
    StartsWith(line, "```")
  }

  function FenceCount(lines: seq<string>): nat {
    CountWhere(lines, IsFenceLine)
  }

  /** The lines of the content left after the substitution. A match runs from the start
      of an opening line to just after the three backticks of the next fence line, so
      what survives of the pair is the rest of the closing line. An opening line with no
      later fence line matches nothing, and neither does any line after it. */
  function StripFences(lines: seq<string>): (r: seq<string>)
    ensures |r| <= |lines|
    decreases |lines|
  {
    if |lines| == 0 then []
    else if IsFenceLine(lines[0]) then
      match FindLine(lines, 1, IsFenceLine)
      case Some(j) => [lines[j][3..]] + StripFences(lines[j + 1..])
      case None => [lines[0]] + StripFences(lines[1..])
    else [lines[0]] + StripFences(lines[1..])
  }

  /** Without fence lines the substitution changes nothing. */
  lemma {:induction false} StripFencesPlain(lines: seq<string>)
    requires forall k | 0 <= k < |lines| :: !IsFenceLine(lines[k])
    ensures StripFences(lines) == lines
  {
    if |lines| > 0 {
      StripFencesPlain(lines[1..]);
      assert [lines[0]] + lines[1..] == lines;
    }
  }

  /** A closed block is replaced by the rest of its closing line, whatever it held. */
  lemma {:induction false} StripFencesClosedBlock(open: string, body: seq<string>, close: string, rest: seq<string>)
    requires IsFenceLine(open) && IsFenceLine(close)
    requires forall k | 0 <= k < |body| :: !IsFenceLine(body[k])
    ensures StripFences([open] + body + [close] + rest) == [close[3..]] + StripFences(rest)
  {
    var lines := [open] + body + [close] + rest;
    var j := |body| + 1;
    assert lines[j] == close;
    assert forall k | 1 <= k < j :: lines[k] == body[k - 1];
    assert FindLine(lines, 1, IsFenceLine) == Some(j);
    assert lines[j + 1..] == rest;
  }

  /** A prefix with an even number of fence lines is stripped on its own: no match
      started inside it reaches past it. */
  lemma {:induction false} StripFencesAppend(a: seq<string>, b: seq<string>)
    requires FenceCount(a) % 2 == 0
    ensures StripFences(a + b) == StripFences(a) + StripFences(b)
    decreases |a|
  {
    if |a| == 0 {
      assert a + b == b;
    } else {
      assert FenceCount(a) == (if IsFenceLine(a[0]) then 1 else 0) + FenceCount(a[1..]);
      if IsFenceLine(a[0]) {
        // the fence count of a[1..] is odd, so a holds a second fence line
        assert a[1..][0..] == a[1..];
        FindLineCounted(a, 1, IsFenceLine);
        var j := FindLine(a, 1, IsFenceLine).value;
        FenceCountAfterPair(a, j);
        StripFencesAppend(a[j + 1..], b);
        ClosedPairAppend(a, b, j);
      } else {
        StripFencesAppend(a[1..], b);
        PlainLineAppend(a, b);
      }
    }
  }

  /** One step of the above: a closed pair at the front is removed alike with or
      without `b` after it. */
  lemma {:induction false} ClosedPairAppend(a: seq<string>, b: seq<string>, j: nat)
    requires 1 <= j < |a| && IsFenceLine(a[0]) && FindLine(a, 1, IsFenceLine) == Some(j)
    requires StripFences(a[j + 1..] + b) == StripFences(a[j + 1..]) + StripFences(b)
    ensures StripFences(a + b) == StripFences(a) + StripFences(b)
  {
    var ab := a + b;
    FindLineExtends(a, b, 1, IsFenceLine);
    assert ab[j + 1..] == a[j + 1..] + b && ab[j] == a[j] && ab[0] == a[0];
    ClosedFront(a, j);
    ClosedFront(ab, j);
    SeqAssoc([a[j][3..]], StripFences(a[j + 1..]), StripFences(b));
  }

  lemma {:induction false} ClosedFront(lines: seq<string>, j: nat)
    requires 1 <= j < |lines| && IsFenceLine(lines[0]) && FindLine(lines, 1, IsFenceLine) == Some(j)
    ensures StripFences(lines) == [lines[j][3..]] + StripFences(lines[j + 1..])
  {
  }

  lemma {:induction false} SeqAssoc(x: seq<string>, y: seq<string>, z: seq<string>)
    ensures x + (y + z) == (x + y) + z
  {
  }

  /** The other step: a line that is not a fence line is kept alike. */
  lemma {:induction false} PlainLineAppend(a: seq<string>, b: seq<string>)
    requires |a| > 0 && !IsFenceLine(a[0])
    requires StripFences(a[1..] + b) == StripFences(a[1..]) + StripFences(b)
    ensures StripFences(a + b) == StripFences(a) + StripFences(b)
  {
    var ab := a + b;
    assert ab[1..] == a[1..] + b && ab[0] == a[0];
    PlainFront(a);
    PlainFront(ab);
    SeqAssoc([a[0]], StripFences(a[1..]), StripFences(b));
  }

  lemma {:induction false} PlainFront(lines: seq<string>)
    requires |lines| > 0 && !IsFenceLine(lines[0])
    ensures StripFences(lines) == [lines[0]] + StripFences(lines[1..])
  {
  }

  /** A line satisfying `p` is found whenever the lines from `from` on count one. */
  lemma {:induction false} FindLineCounted(lines: seq<string>, from: nat, p: string -> bool)
    requires from <= |lines| && CountWhere(lines[from..], p) > 0
    ensures FindLine(lines, from, p).Some?
    decreases |lines| - from
  {
    var rest := lines[from..];
    assert |rest| > 0;
    if !p(lines[from]) {
      assert rest[0] == lines[from] && rest[1..] == lines[from + 1..];
      FindLineCounted(lines, from + 1, p);
    }
  }

  lemma {:induction false} NoFenceCount(lines: seq<string>)
    requires forall k | 0 <= k < |lines| :: !IsFenceLine(lines[k])
    ensures FenceCount(lines) == 0
  {
    if |lines| > 0 {
      NoFenceCount(lines[1..]);
    }
  }

  lemma {:induction false} FindLineExtends(a: seq<string>, b: seq<string>, from: nat, p: string -> bool)
    requires from <= |a|
    requires FindLine(a, from, p).Some?
    ensures FindLine(a + b, from, p) == FindLine(a, from, p)
  {
    var j := FindLine(a, from, p).value;
    var ab := a + b;
    assert forall k | from <= k <= j :: ab[k] == a[k];
    assert p(ab[j]);
    assert forall k | from <= k < j :: !p(ab[k]);
  }

  /** Lines 0 and j are the first two fence lines of a: the rest of a has two fewer. */
  lemma {:induction false} FenceCountAfterPair(a: seq<string>, j: nat)
    requires 1 <= j < |a| && IsFenceLine(a[0]) && IsFenceLine(a[j])
    requires forall k | 1 <= k < j :: !IsFenceLine(a[k])
    ensures FenceCount(a[j + 1..]) == FenceCount(a) - 2
  {
    assert a == [a[0]] + a[1..j] + [a[j]] + a[j + 1..];
    CountWhereAppend([a[0]] + a[1..j] + [a[j]], a[j + 1..], IsFenceLine);
    CountWhereAppend([a[0]] + a[1..j], [a[j]], IsFenceLine);
    CountWhereAppend([a[0]], a[1..j], IsFenceLine);
    NoFenceCount(a[1..j]);
  }

  /** An opening fence line after an even prefix, with no fence line after it, removes
      nothing: it and everything after it are kept. */
  lemma {:induction false} StripFencesUnclosed(a: seq<string>, open: string, tail: seq<string>)
    requires FenceCount(a) % 2 == 0 && IsFenceLine(open)
    requires forall k | 0 <= k < |tail| :: !IsFenceLine(tail[k])
    ensures StripFences(a + [open] + tail) == StripFences(a) + [open] + tail
  {
    LinesAssoc(a, [open], tail);
    LinesAssoc(StripFences(a), [open], tail);
    StripFencesAppend(a, [open] + tail);
    StripFencesLastOpen(open, tail);
  }

  lemma {:induction false} LinesAssoc(x: seq<string>, y: seq<string>, z: seq<string>)
    ensures x + y + z == x + (y + z)
  {
  }

  lemma {:induction false} StripFencesLastOpen(open: string, tail: seq<string>)
    requires IsFenceLine(open)
    requires forall k | 0 <= k < |tail| :: !IsFenceLine(tail[k])
    ensures StripFences([open] + tail) == [open] + tail
  {
    var t := [open] + tail;
    assert forall k | 1 <= k < |t| :: t[k] == tail[k - 1];
    assert FindLine(t, 1, IsFenceLine).None?;
    assert t[1..] == tail;
    StripFencesPlain(tail);
  }

  /** `count_sections(pattern)`: lines of the stripped content that satisfy the
      pattern's line predicate. */
  function CountSections(content: string, p: string -> bool): nat {
    CountWhere(StripFences(Lines(content)), p)
  }

  // ---------------------------------------------------------------------------
  // Heading line predicates
  // ---------------------------------------------------------------------------

  /** `^##\s` : two hashes then whitespace (so never a `###` line). */
  predicate IsH2Start(line: string) {
    |line| > 2 && line[..2] == "##" && IsSpace(line[2])
  }

  /** The characters after the maximal `\s+` run that follows `##`. */
  function AfterH2Marker(line: string): string
    requires IsH2Start(line)
  {
    LStrip(line[2..])
  }

  /** `^##\s+Pattern\s+\d+:` (case as written). */
  predicate IsPatternHeading(line: string) {
    IsH2Start(line) &&
    var a := AfterH2Marker(line);
    |a| > 7 && a[..7] == "Pattern" && IsSpace(a[7]) &&
    var b := LStrip(a[7..]);
    var d := DigitRun(b);
    0 < d < |b| && b[d] == ':'
  }

  /** Length of the maximal run of ASCII digits at the start of `s`. */
  function DigitRun(s: string): (r: nat)
    ensures r <= |s|
    ensures forall k | 0 <= k < r :: IsAsciiDigit(s[k])
    ensures r < |s| ==> !IsAsciiDigit(s[r])
  {
    if |s| > 0 && IsAsciiDigit(s[0]) then 1 + DigitRun(s[1..]) else 0
  }

  /** `len(re.findall(r'^##\s+Pattern\s+\d+:', content_without_code, re.MULTILINE))` */
  function PatternSectionCount(content: string): nat {
    CountSections(content, IsPatternHeading)
  }

  /** A heading inside a closed block never counts: two documents that differ only in
      what a closed block holds have the same pattern count. */
  lemma {:induction false} FencedPatternsIgnored(a: seq<string>, open: string, body1: seq<string>, body2: seq<string>,
                               close: string, rest: seq<string>)
    requires FenceCount(a) % 2 == 0 && IsFenceLine(open) && IsFenceLine(close)
    requires forall k | 0 <= k < |body1| :: !IsFenceLine(body1[k])
    requires forall k | 0 <= k < |body2| :: !IsFenceLine(body2[k])
    ensures CountWhere(StripFences(a + [open] + body1 + [close] + rest), IsPatternHeading)
         == CountWhere(StripFences(a + [open] + body2 + [close] + rest), IsPatternHeading)
  {
    assert a + [open] + body1 + [close] + rest == a + ([open] + body1 + [close] + rest);
    assert a + [open] + body2 + [close] + rest == a + ([open] + body2 + [close] + rest);
    StripFencesAppend(a, [open] + body1 + [close] + rest);
    StripFencesAppend(a, [open] + body2 + [close] + rest);
    StripFencesClosedBlock(open, body1, close, rest);
    StripFencesClosedBlock(open, body2, close, rest);
  }

  /** After the last, unclosed fence every pattern heading counts. */
  lemma {:induction false} UnclosedFencePatternsCounted(a: seq<string>, open: string, tail: seq<string>)
    requires FenceCount(a) % 2 == 0 && IsFenceLine(open)
    requires forall k | 0 <= k < |tail| :: !IsFenceLine(tail[k])
    ensures CountWhere(StripFences(a + [open] + tail), IsPatternHeading)
         == CountWhere(StripFences(a), IsPatternHeading) + CountWhere(tail, IsPatternHeading)
  {
    StripFencesUnclosed(a, open, tail);
    var s := StripFences(a);
    CountWhereAppend(s + [open], tail, IsPatternHeading);
    CountWhereAppend(s, [open], IsPatternHeading);
    FenceLineNotHeading(open);
    assert CountWhere([open], IsPatternHeading) == 0;
  }

  /** A fence line starts with a backtick, so it is no `##` line. */
  lemma {:induction false} FenceLineNotHeading(line: string)
    requires IsFenceLine(line)
    ensures !IsH2Start(line)
  {
    assert line[..3][0] == '`';
  }

  // ---------------------------------------------------------------------------
  // has_section: re.search(r'^##\s+.*<title>', content, IGNORECASE | MULTILINE)
  // ---------------------------------------------------------------------------

  predicate MentionsTitle(line: string, title: string) {
    IsH2Start(line) && Contains(Lower(line[3..]), Lower(title))
  }

  predicate HasSection(content: string, title: string) {
    var lines := Lines(content);
    exists k | 0 <= k < |lines| :: MentionsTitle(lines[k], title)
  }

  // ---------------------------------------------------------------------------
  // extract_frontmatter: re.match(r'^---\s*\n(.*?)\n---\s*\n', content, re.DOTALL)
  // ---------------------------------------------------------------------------

  /** `---` followed only by whitespace. */
  predicate IsDashLine(line: string) {
    StartsWith(line, "---") && AllSpace(line[3..])
  }

  /** The opening line is line 0; the closing line is the first `---` line from line 2 on
      (the newline before it cannot be the one that ends line 0) that a newline follows. */
  function ExtractFrontmatter(content: string): Option<string> {
    var lines := Lines(content);
    if |lines| >= 3 && IsDashLine(lines[0]) then
      match FindLine(lines[..|lines| - 1], 2, IsDashLine)
      case Some(j) => Some(Join(lines[1..j], "\n"))
      case None => None
    else None
  }

  /** There is a frontmatter exactly when the first line is a `---` line and a later
      `---` line, not the last, closes it; it is then the text of the lines between the
      opening line and the first such closing line. */
  lemma {:induction false} ExtractFrontmatterSpec(content: string)
    ensures var lines := Lines(content);
      ExtractFrontmatter(content).Some? <==>
        (|lines| >= 2 && IsDashLine(lines[0]) && exists j | 2 <= j < |lines| - 1 :: IsDashLine(lines[j]))
    ensures var lines := Lines(content);
      ExtractFrontmatter(content).Some? ==> exists j | 2 <= j < |lines| - 1 ::
        && IsDashLine(lines[j])
        && (forall k | 2 <= k < j :: !IsDashLine(lines[k]))
        && ExtractFrontmatter(content).value == Join(lines[1..j], "\n")
  {
    var lines := Lines(content);
    if |lines| >= 3 && IsDashLine(lines[0]) {
      var f := FindLine(lines[..|lines| - 1], 2, IsDashLine);
      ClosingSearch(lines);
      if f.Some? {
        var j := f.value;
        assert ExtractFrontmatter(content) == Some(Join(lines[1..j], "\n"));
        assert IsDashLine(lines[j]) && (forall k | 2 <= k < j :: !IsDashLine(lines[k]));
      }
    }
  }

  /** The search for the closing line, which leaves out the last line, read on the lines
      themselves. */
  lemma {:induction false} ClosingSearch(lines: seq<string>)
    requires |lines| >= 3
    ensures var f := FindLine(lines[..|lines| - 1], 2, IsDashLine);
      && (f.Some? ==> 2 <= f.value < |lines| - 1 && IsDashLine(lines[f.value])
                      && forall k | 2 <= k < f.value :: !IsDashLine(lines[k]))
      && (f.None? ==> forall k | 2 <= k < |lines| - 1 :: !IsDashLine(lines[k]))
  {
    var init := lines[..|lines| - 1];
    assert forall k | 0 <= k < |init| :: init[k] == lines[k];
  }

  // ---------------------------------------------------------------------------
  // get_section_content:
  //   re.search(rf'^##\s+{re.escape(h)}.*?\n(.*?)(?=^##\s|\Z)', content,
  //             re.MULTILINE | re.DOTALL | re.IGNORECASE).group(1).strip()
  // ---------------------------------------------------------------------------

  /** `##`, whitespace, then a title that starts with `heading`, ignoring ASCII case. */
  predicate IsHeadingFor(line: string, heading: string) {
    IsH2Start(line) && StartsWith(Lower(AfterH2Marker(line)), Lower(heading))
  }

  /** The end of the body of the section that starts after line `i`: the next `##`
      boundary line, or the end of the document. */
  function SectionEnd(lines: seq<string>, i: nat): (j: nat)
    requires i < |lines|
    ensures i < j <= |lines|
    ensures forall k | i < k < j :: !IsH2Start(lines[k])
    ensures j < |lines| ==> IsH2Start(lines[j])
  {
    match FindLine(lines, i + 1, IsH2Start)
    case Some(j) => j
    case None => |lines|
  }

  /** The first line at or after `from` that is a heading for `heading`. */
  function FindHeading(lines: seq<string>, heading: string, from: nat): (r: Option<nat>)
    requires from <= |lines|
    ensures r.Some? ==> from <= r.value < |lines| && IsHeadingFor(lines[r.value], heading)
    ensures r.Some? ==> forall k | from <= k < r.value :: !IsHeadingFor(lines[k], heading)
    ensures r.None? ==> forall k | from <= k < |lines| :: !IsHeadingFor(lines[k], heading)
    decreases |lines| - from
  {
    if from == |lines| then None
    else if IsHeadingFor(lines[from], heading) then Some(from)
    else FindHeading(lines, heading, from + 1)
  }

  function SectionContent(content: string, heading: string): Option<string> {
    SectionIn(Lines(content), heading)
  }

  function SectionIn(lines: seq<string>, heading: string): Option<string> {
    match FindHeading(lines, heading, 0)
    case None => None
    case Some(i) =>
      if i == |lines| - 1 then None
      else Some(Strip(Join(lines[i + 1..SectionEnd(lines, i)], "\n")))
  }

  /** `get_section_content(heading)` is `None` exactly when no line but the last is a
      `##` heading whose title starts with `heading`. */
  lemma {:induction false} SectionContentNone(content: string, heading: string)
    ensures var lines := Lines(content);
      SectionContent(content, heading).None? <==> forall i | 0 <= i < |lines| - 1 :: !IsHeadingFor(lines[i], heading)
  {
    var lines := Lines(content);
    var f := FindHeading(lines, heading, 0);
    if f.Some? && f.value < |lines| - 1 {
      assert SectionContent(content, heading).Some?;
      assert IsHeadingFor(lines[f.value], heading);
    }
  }

  /** Otherwise it is the stripped text of the lines after the first such heading, up to
      the next `##` line or the end. */
  lemma {:induction false} SectionContentAt(content: string, heading: string, i: nat, j: nat)
    requires i + 1 < |Lines(content)| && i < j <= |Lines(content)|
    requires IsHeadingFor(Lines(content)[i], heading)
    requires forall k | 0 <= k < i :: !IsHeadingFor(Lines(content)[k], heading)
    requires forall k | i < k < j :: !IsH2Start(Lines(content)[k])
    requires j == |Lines(content)| || IsH2Start(Lines(content)[j])
    ensures SectionContent(content, heading) == Some(Strip(Join(Lines(content)[i + 1..j], "\n")))
  {
    SectionInAt(Lines(content), heading, i, j);
  }

  lemma {:induction false} SectionInAt(lines: seq<string>, heading: string, i: nat, j: nat)
    requires i + 1 < |lines| && i < j <= |lines|
    requires IsHeadingFor(lines[i], heading)
    requires forall k | 0 <= k < i :: !IsHeadingFor(lines[k], heading)
    requires forall k | i < k < j :: !IsH2Start(lines[k])
    requires j == |lines| || IsH2Start(lines[j])
    ensures SectionIn(lines, heading) == Some(Strip(Join(lines[i + 1..j], "\n")))
  {
    var f := FindHeading(lines, heading, 0);
    assert f == Some(i);
    var e := SectionEnd(lines, i);
    assert e == j;
  }

  /** A `###` line is never a section boundary, so subsections stay in the body. */
  lemma {:induction false} H3NotBoundary(line: string)
    requires StartsWith(line, "###")
    ensures !IsH2Start(line)
  {
    assert line[2] == '#';
  }
}
