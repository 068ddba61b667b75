/**
 * `SkillDocument` of skills/skill-revision-guide/scripts/check_sync.py: one SKILL.md text
 * parsed into the frontmatter fields, the H2 titles, the `### Pattern N` count, the
 * ✅/❌ counts and the tables. The object's fields are set by one parse method each.
 */
module SyncDocument {
  import opened Text
  import opened Validator
  import opened CheckPatterns

  const GoodMark: char := '\U{2705}'
  const BadMark: char := '\U{274C}'

  // ---------------------------------------------------------------------------
  // Frontmatter: re.search(r'^---\n(.*?)\n---', content, re.DOTALL)
  // ---------------------------------------------------------------------------

  /** The fields `_parse_frontmatter` finds; a key missing from the dict is `None`. */
  datatype Frontmatter = Frontmatter(name: Option<string>, description: Option<string>,
                                     author: Option<string>, tags: Option<seq<string>>)

  const NoFrontmatter := Frontmatter(None, None, None, None)

  /** The group of `^---\n(.*?)\n---`: the text after an opening `---` line up to the
      first following newline-and-three-dashes. */
  function FrontmatterBlock(content: string): Option<string> {
    if StartsWith(content, "---\n") then
      match FindFrom(content, "\n---", 4)
      case Some(k) => Some(content[4..k])
      case None => None
    else None
  }

  /** A document that opens with `---`, a block free of `\n---`, and `\n---` has that
      block as its frontmatter. */
  lemma {:induction false} FrontmatterBlockOf(yaml: string, rest: string)
    requires !Contains(yaml, "\n---")
    ensures FrontmatterBlock("---\n" + yaml + "\n---" + rest) == Some(yaml)
  {
    var s := "---\n" + yaml + "\n---" + rest;
    var e := 4 + |yaml|;
    assert s[..4] == "---\n";
    assert s[4..e] == yaml;
    assert s[e..e + 4] == "\n---";
    forall k | 4 <= k < e ensures !OccursAt(s, "\n---", k) {
      if k + 4 <= e {
        if OccursAt(s, "\n---", k) {
          assert s[k..k + 4] == s[4..e][k - 4..k];
          assert s[k..k + 4] == yaml[k - 4..k];
          assert OccursAt(yaml, "\n---", k - 4);
          assert false;
        }
      } else {
        assert s[e] == '\n';
        assert s[k..k + 4][e - k] == s[e];
      }
    }
    assert OccursAt(s, "\n---", e);
  }

  /** Without an opening `---` line there is no frontmatter. */
  lemma {:induction false} FrontmatterNeedsOpening(content: string)
    requires !StartsWith(content, "---\n")
    ensures FrontmatterBlock(content) == None
  {
  }

  /** `^key:\s*(.+)$` matches on this line: the key and its colon, then at least one
      character. */
  predicate IsFieldLine(line: string, key: string) {
    StartsWith(line, key + ":") && |line| > |key| + 1
  }

  /** `match.group(1).strip()`: whatever `\s*` leaves for `(.+)`, stripped, is the rest
      of the line stripped. */
  function FieldText(line: string, key: string): string
    requires IsFieldLine(line, key)
  {
    Strip(line[|key| + 1..])
  }

  /** The value of the first line the field pattern matches on. */
  function Field(lines: seq<string>, key: string): Option<string> {
    if |lines| == 0 then None
    else if IsFieldLine(lines[0], key) then Some(FieldText(lines[0], key))
    else Field(lines[1..], key)
  }

  /** The first field line wins; lines before it that do not match are skipped. */
  lemma {:induction false} FieldIsFirstMatch(pre: seq<string>, line: string, post: seq<string>, key: string)
    requires forall k | 0 <= k < |pre| :: !IsFieldLine(pre[k], key)
    requires IsFieldLine(line, key)
    ensures Field(pre + [line] + post, key) == Some(FieldText(line, key))
  {
    if |pre| > 0 {
      assert (pre + [line] + post)[1..] == pre[1..] + [line] + post;
      FieldIsFirstMatch(pre[1..], line, post, key);
    } else {
      assert pre + [line] + post == [line] + post;
    }
  }

  /** A key on no line leaves the field unset. */
  lemma {:induction false} FieldAbsent(lines: seq<string>, key: string)
    requires forall k | 0 <= k < |lines| :: !IsFieldLine(lines[k], key)
    ensures Field(lines, key) == None
  {
    if |lines| > 0 {
      FieldAbsent(lines[1..], key);
    }
  }

  /** The group of `^tags:\s*\[(.*?)\]` on one line: from the bracket after the key to
      the first closing bracket. */
  function TagsGroup(line: string): Option<string> {
    if StartsWith(line, "tags:") then
      var a := LStrip(line[5..]);
      if |a| > 0 && a[0] == '[' then
        match Find(a[1..], "]")
        case Some(k) => Some(a[1..1 + k])
        case None => None
      else None
    else None
  }

  function TagsField(lines: seq<string>): Option<string> {
    if |lines| == 0 then None
    else if TagsGroup(lines[0]).Some? then TagsGroup(lines[0])
    else TagsField(lines[1..])
  }

  /** `tag.strip().strip('"').strip("'")` */
  function CleanTag(part: string): string {
    StripChar(StripChar(Strip(part), '"'), '\'')
  }

  /** The list comprehension over `tags_str.split(',')`, keeping parts that are not
      blank. */
  function CleanTags(parts: seq<string>): (r: seq<string>)
    ensures |r| <= |parts|
  {
    if |parts| == 0 then []
    else (if Strip(parts[0]) != [] then [CleanTag(parts[0])] else []) + CleanTags(parts[1..])
  }

  function TagList(inner: string): seq<string> {
    CleanTags(Split(inner, ','))
  }

  /** The fields of `_parse_frontmatter` applied to one text. */
  function FrontmatterOf(content: string): Frontmatter {
    match FrontmatterBlock(content)
    case None => NoFrontmatter
    case Some(yaml) =>
      var lines := Lines(yaml);
      Frontmatter(Field(lines, "name"), Field(lines, "description"), Field(lines, "author"),
                  match TagsField(lines) case Some(t) => Some(TagList(t)) case None => None)
  }

  /** `self.frontmatter[key] = …` for the keys that were found; other keys keep what the
      dict held. */
  function Merge(old_: Frontmatter, found: Frontmatter): (r: Frontmatter)
    ensures found.name.Some? ==> r.name == found.name
    ensures found.name.None? ==> r.name == old_.name
    ensures found.description.Some? ==> r.description == found.description
    ensures found.description.None? ==> r.description == old_.description
    ensures found.author.Some? ==> r.author == found.author
    ensures found.author.None? ==> r.author == old_.author
    ensures found.tags.Some? ==> r.tags == found.tags
    ensures found.tags.None? ==> r.tags == old_.tags
  {
    Frontmatter(if found.name.Some? then found.name else old_.name,
                if found.description.Some? then found.description else old_.description,
                if found.author.Some? then found.author else old_.author,
                if found.tags.Some? then found.tags else old_.tags)
  }

  /** Into the empty dict the found keys are merged as they are. */
  lemma {:induction false} MergeIntoEmpty(found: Frontmatter)
    ensures Merge(NoFrontmatter, found) == found
  {
  }

  /** A tag as the template generator writes one: non-empty, without commas or closing
      brackets, and not starting or ending in whitespace or a quote. */
  predicate IsPlainTag(t: string) {
    && |t| > 0
    && ',' !in t && ']' !in t
    && !IsSpace(t[0]) && !IsSpace(t[|t| - 1])
    && !IsQuote(t[0]) && !IsQuote(t[|t| - 1])
  }

  function Spaced(tags: seq<string>): (r: seq<string>)
    ensures |r| == |tags|
    ensures forall k | 0 <= k < |tags| :: r[k] == " " + tags[k]
  {
    seq(|tags|, k requires 0 <= k < |tags| => " " + tags[k])
  }

  lemma {:induction false} SplitJoinedTags(tags: seq<string>)
    requires |tags| > 0
    requires forall k | 0 <= k < |tags| :: ',' !in tags[k]
    ensures Split(Join(tags, ", "), ',') == [tags[0]] + Spaced(tags[1..])
  {
    if |tags| == 1 {
      SplitNoSep(tags[0], ',');
    } else {
      var x := Join(tags[1..], ", ");
      assert Join(tags, ", ") == tags[0] + [','] + (" " + x);
      SplitAfterPiece(tags[0], ',', " " + x);
      SplitJoinedTags(tags[1..]);
      var sx := Split(x, ',');
      assert sx == [tags[1]] + Spaced(tags[2..]);
      assert (" " + x)[1..] == x;
      assert Split(" " + x, ',') == [" " + sx[0]] + sx[1..];
      assert [" " + tags[1]] + Spaced(tags[2..]) == Spaced(tags[1..]);
    }
  }

  lemma {:induction false} StripPlain(t: string, pad: string)
    requires |t| > 0 && !IsSpace(t[0]) && !IsSpace(t[|t| - 1])
    requires pad == "" || pad == " "
    ensures Strip(pad + t) == t
  {
    var s := pad + t;
    if pad == " " {
      assert s[0] == ' ' && s[1..] == t;
      assert LeadingSpace(s) == 1 + LeadingSpace(t);
    } else {
      assert s == t;
    }
    assert LStrip(s) == t;
    assert TrailingSpace(t) == 0;
  }

  lemma {:induction false} CleanPlainTag(t: string, pad: string)
    requires IsPlainTag(t)
    requires pad == "" || pad == " "
    ensures Strip(pad + t) != [] && CleanTag(pad + t) == t
  {
    assert Strip(pad + t) == t by { StripPlain(t, pad); }
    assert StripChar(t, '"') == t by { assert t[0] != '"' && t[|t| - 1] != '"'; }
    assert StripChar(t, '\'') == t by { assert t[0] != '\'' && t[|t| - 1] != '\''; }
  }

  lemma {:induction false} CleanSpacedTags(tags: seq<string>)
    requires forall k | 0 <= k < |tags| :: IsPlainTag(tags[k])
    ensures CleanTags(Spaced(tags)) == tags
  {
    if |tags| > 0 {
      CleanPlainTag(tags[0], " ");
      assert Spaced(tags)[1..] == Spaced(tags[1..]);
      CleanSpacedTags(tags[1..]);
      assert [tags[0]] + tags[1..] == tags;
    }
  }

  /** Round trip: tags joined by `", "`, as the template generator writes them, are read
      back as the same list. */
  lemma {:induction false} TagListOfJoin(tags: seq<string>)
    requires |tags| > 0
    requires forall k | 0 <= k < |tags| :: IsPlainTag(tags[k])
    ensures TagList(Join(tags, ", ")) == tags
  {
    SplitJoinedTags(tags);
    CleanPlainTag(tags[0], "");
    assert "" + tags[0] == tags[0];
    var parts := [tags[0]] + Spaced(tags[1..]);
    assert parts[1..] == Spaced(tags[1..]);
    CleanSpacedTags(tags[1..]);
    assert [tags[0]] + tags[1..] == tags;
  }

  /** Blank parts are dropped: two commas in a row or a trailing comma add no tag. */
  lemma {:induction false} BlankPartsDropped(parts: seq<string>)
    ensures |CleanTags(parts)| == CountWhere(parts, IsNonBlank)
  {
    if |parts| > 0 {
      BlankPartsDropped(parts[1..]);
    }
  }

  predicate IsNonBlank(part: string) { Strip(part) != [] }

  // ---------------------------------------------------------------------------
  // Sections: re.sub(r'^---\n.*?\n---\n', '', content, flags=re.DOTALL), then
  //           re.finditer(r'^##\s+(.+)$', …, re.MULTILINE)
  // ---------------------------------------------------------------------------

  /** The content with a leading `---` … `---` block and the newline after it removed. */
  function WithoutFrontmatter(content: string): (r: string)
    ensures |r| <= |content|
  {
    if StartsWith(content, "---\n") then
      match FindFrom(content, "\n---\n", 4)
      case Some(k) => content[k + 5..]
      case None => content
    else content
  }

  lemma {:induction false} WithoutFrontmatterOf(yaml: string, body: string)
    requires !Contains(yaml, "\n---")
    ensures WithoutFrontmatter("---\n" + yaml + "\n---\n" + body) == body
  {
    var s := "---\n" + yaml + "\n---\n" + body;
    var e := 4 + |yaml|;
    assert s[..4] == "---\n";
    assert s[4..e] == yaml;
    assert s[e..e + 5] == "\n---\n";
    forall k | 4 <= k < e ensures !OccursAt(s, "\n---\n", k) {
      if k + 4 <= e {
        if OccursAt(s, "\n---\n", k) {
          assert s[k..k + 4] == s[k..k + 5][..4];
          assert s[k..k + 4] == s[4..e][k - 4..k];
          assert s[k..k + 4] == yaml[k - 4..k];
          assert OccursAt(yaml, "\n---", k - 4);
          assert false;
        }
      } else {
        assert s[e] == '\n';
        if k + 5 <= |s| {
          assert s[k..k + 5][e - k] == s[e];
        }
      }
    }
    assert OccursAt(s, "\n---\n", e);
    assert s[e + 5..] == body;
  }

  /** The trimmed titles of the lines `^##\s+(.+)$` matches, in order. */
  function H2Titles(lines: seq<string>): (r: seq<string>)
    ensures |r| == CountWhere(lines, IsTitledH2)
  {
    if |lines| == 0 then []
    else (if IsTitledH2(lines[0]) then [Strip(H2Title(lines[0]))] else []) + H2Titles(lines[1..])
  }

  lemma {:induction false} H2TitlesAppend(a: seq<string>, b: seq<string>)
    ensures H2Titles(a + b) == H2Titles(a) + H2Titles(b)
  {
    if |a| == 0 {
      assert a + b == b;
    } else {
      assert (a + b)[0] == a[0] && (a + b)[1..] == a[1..] + b;
      H2TitlesAppend(a[1..], b);
    }
  }

  /** A `###` line is no H2 heading: inserting one changes no title. */
  lemma {:induction false} H3LineIgnored(a: seq<string>, h3: string, b: seq<string>)
    requires StartsWith(h3, "###")
    ensures H2Titles(a + [h3] + b) == H2Titles(a + b)
  {
    H3NotBoundary(h3);
    var c := [h3] + b;
    assert c[0] == h3 && c[1..] == b;
    assert H2Titles(c) == H2Titles(b);
    H2TitlesAppend(a, c);
    H2TitlesAppend(a, b);
    assert a + [h3] + b == a + c;
  }

  function Sections(content: string): seq<string> {
    H2Titles(Lines(WithoutFrontmatter(content)))
  }

  // ---------------------------------------------------------------------------
  // Patterns: len(re.findall(r'###\s+Pattern\s+\d+', content, re.IGNORECASE))
  // ---------------------------------------------------------------------------

  /** Where a match starting at `i` ends: `###`, the greedy whitespace run, `pattern`
      in any case, another whitespace run and the digit run. */
  function PatternMarkEnd(s: string, i: nat): (r: Option<nat>)
    ensures r.Some? ==> i < r.value <= |s|
  {
    if OccursAt(s, "###", i) then
      var p := i + 3;
      var w := SpaceRun(s[p..]);
      var q := p + w;
      if w > 0 && q + 7 <= |s| && Lower(s[q..q + 7]) == "pattern" then
        var v := SpaceRun(s[q + 7..]);
        var d := DigitRun(s[q + 7 + v..]);
        if v > 0 && d > 0 then Some(q + 7 + v + d) else None
      else None
    else None
  }

  /** `findall` from position `i`: after a match the scan resumes where it ended. */
  function PatternMarksFrom(s: string, i: nat): nat
    requires i <= |s|
    decreases |s| - i
  {
    if i == |s| then 0
    else match PatternMarkEnd(s, i)
      case Some(e) => 1 + PatternMarksFrom(s, e)
      case None => PatternMarksFrom(s, i + 1)
  }

  function PatternCount(content: string): nat {
    PatternMarksFrom(content, 0)
  }

  lemma {:induction false} NoMarksWithoutTripleHash(s: string, i: nat)
    requires i <= |s|
    requires forall k | i <= k < |s| :: !OccursAt(s, "###", k)
    ensures PatternMarksFrom(s, i) == 0
    decreases |s| - i
  {
    if i < |s| {
      NoMarksWithoutTripleHash(s, i + 1);
    }
  }

  /** Only `###` starts a match: a text without three hashes in a row, such as one whose
      pattern headings are all `## Pattern N:`, counts no pattern. */
  lemma {:induction false} H2PatternsNotCounted(content: string)
    requires !Contains(content, "###")
    ensures PatternCount(content) == 0
  {
    NoMarksWithoutTripleHash(content, 0);
  }

  /** A `### Pattern N` heading is one match, whatever the case of `pattern`. */
  lemma {:induction false} H3PatternCounted(word: string, digits: string)
    requires |word| == 7 && Lower(word) == "pattern"
    requires |digits| > 0 && forall k | 0 <= k < |digits| :: IsAsciiDigit(digits[k])
    ensures PatternCount("### " + word + " " + digits) == 1
  {
    var s := "### " + word + " " + digits;
    PatternMarkOfHeading(word, digits);
    assert PatternMarksFrom(s, |s|) == 0;
    assert PatternMarksFrom(s, 0) == 1 + PatternMarksFrom(s, |s|);
  }

  lemma {:induction false} PatternMarkOfHeading(word: string, digits: string)
    requires |word| == 7 && Lower(word) == "pattern"
    requires |digits| > 0 && forall k | 0 <= k < |digits| :: IsAsciiDigit(digits[k])
    ensures var s := "### " + word + " " + digits; PatternMarkEnd(s, 0) == Some(|s|)
  {
    var s := "### " + word + " " + digits;
    assert s[..3] == "###";
    assert LowerChar(word[0]) == 'p';
    assert s[3..] == " " + (word + " " + digits);
    SpaceRunOne(word + " " + digits);
    assert s[4..11] == word;
    assert s[11..] == " " + digits;
    SpaceRunOne(digits);
    assert s[12..] == digits;
    DigitRunAll(digits);
  }

  /** One space before a non-space character is a whitespace run of one. */
  lemma {:induction false} SpaceRunOne(t: string)
    requires |t| > 0 && !IsSpace(t[0])
    ensures SpaceRun(" " + t) == 1
  {
    var s := " " + t;
    assert s[1..] == t;
    assert LeadingSpace(t) == 0;
    assert LeadingSpace(s) == 1;
  }

  lemma {:induction false} DigitRunAll(digits: string)
    requires forall k | 0 <= k < |digits| :: IsAsciiDigit(digits[k])
    ensures DigitRun(digits) == |digits|
  {
    if |digits| > 0 {
      DigitRunAll(digits[1..]);
    }
  }

  // ---------------------------------------------------------------------------
  // Tables: lines whose stripped form starts with `|`, grouped into runs
  // ---------------------------------------------------------------------------

  /** `'|' in stripped and stripped.startswith('|')` for `stripped = line.strip()` */
  predicate IsTableLine(line: string) {
    StartsWith(Strip(line), "|")
  }

  /** The maximal runs of consecutive lines satisfying `p`, in order. The tables of a
      document are `Runs(lines, IsTableLine)`; the lemmas below hold for any `p`. */
  function Runs(lines: seq<string>, p: string -> bool): (r: seq<seq<string>>)
    ensures |lines| > 0 && p(lines[|lines| - 1]) ==> |r| > 0
  {
    if |lines| == 0 then []
    else
      var g := Runs(lines[..|lines| - 1], p);
      var line := lines[|lines| - 1];
      if !p(line) then g
      else if |lines| > 1 && p(lines[|lines| - 2]) then g[..|g| - 1] + [g[|g| - 1] + [line]]
      else g + [[line]]
  }

  function TableGroups(lines: seq<string>): seq<seq<string>> {
    Runs(lines, IsTableLine)
  }

  /** Every run, so every table, has at least one line. */
  lemma {:induction false} RunsNonEmpty(lines: seq<string>, p: string -> bool)
    ensures forall k | 0 <= k < |Runs(lines, p)| :: |Runs(lines, p)[k]| > 0
  {
    if |lines| > 0 {
      RunsNonEmpty(lines[..|lines| - 1], p);
    }
  }

  /** The lines satisfying `p`, in order. */
  function Filter(lines: seq<string>, p: string -> bool): seq<string> {
    if |lines| == 0 then []
    else Filter(lines[..|lines| - 1], p) + (if p(lines[|lines| - 1]) then [lines[|lines| - 1]] else [])
  }

  lemma {:induction false} FilterCount(lines: seq<string>, p: string -> bool)
    ensures |Filter(lines, p)| == CountWhere(lines, p)
  {
    if |lines| > 0 {
      var init := lines[..|lines| - 1];
      FilterCount(init, p);
      CountWhereAppend(init, [lines[|lines| - 1]], p);
      assert init + [lines[|lines| - 1]] == lines;
    }
  }

  function Flatten(runs: seq<seq<string>>): seq<string> {
    if |runs| == 0 then [] else Flatten(runs[..|runs| - 1]) + runs[|runs| - 1]
  }

  /** Read one after another, the runs are exactly the lines satisfying `p`: no line is
      lost, repeated or taken from outside a run, so the lines of all tables add up to
      the number of table lines. */
  lemma {:induction false} RunsPartition(lines: seq<string>, p: string -> bool)
    ensures Flatten(Runs(lines, p)) == Filter(lines, p)
    ensures |Flatten(Runs(lines, p))| == CountWhere(lines, p)
  {
    FilterCount(lines, p);
    if |lines| > 0 {
      var init := lines[..|lines| - 1];
      RunsPartition(init, p);
      var g := Runs(init, p);
      var line := lines[|lines| - 1];
      if p(line) && |lines| > 1 && p(lines[|lines| - 2]) {
        assert init[|init| - 1] == lines[|lines| - 2];
        var r := g[..|g| - 1] + [g[|g| - 1] + [line]];
        assert r[..|r| - 1] == g[..|g| - 1];
        assert g[..|g| - 1] + [g[|g| - 1]] == g;
        assert Flatten(g) == Flatten(g[..|g| - 1]) + g[|g| - 1];
      } else if p(line) {
        var r := g + [[line]];
        assert r[..|r| - 1] == g;
      }
    }
  }

  /** The number of lines that open a run: lines satisfying `p` whose predecessor does
      not. */
  function RunStarts(lines: seq<string>, p: string -> bool): nat {
    if |lines| == 0 then 0
    else
      RunStarts(lines[..|lines| - 1], p)
      + (if p(lines[|lines| - 1]) && !(|lines| > 1 && p(lines[|lines| - 2])) then 1 else 0)
  }

  /** Runs are maximal: there are as many runs as lines that open one. */
  lemma {:induction false} RunCountIsStartCount(lines: seq<string>, p: string -> bool)
    ensures |Runs(lines, p)| == RunStarts(lines, p)
  {
    if |lines| > 0 {
      RunCountIsStartCount(lines[..|lines| - 1], p);
      assert |lines| > 1 ==> lines[..|lines| - 1][|lines| - 2] == lines[|lines| - 2];
    }
  }

  /** One more line: a line outside `p` leaves the runs, a line after a line in `p`
      extends the last run, and any other line in `p` opens a new one. */
  lemma {:induction false} RunsStep(lines: seq<string>, i: nat, p: string -> bool)
    requires i < |lines|
    ensures !p(lines[i]) ==> Runs(lines[..i + 1], p) == Runs(lines[..i], p)
    ensures p(lines[i]) && i > 0 && p(lines[i - 1]) ==>
              var g := Runs(lines[..i], p);
              |g| > 0 && Runs(lines[..i + 1], p) == g[..|g| - 1] + [g[|g| - 1] + [lines[i]]]
    ensures p(lines[i]) && !(i > 0 && p(lines[i - 1])) ==>
              Runs(lines[..i + 1], p) == Runs(lines[..i], p) + [[lines[i]]]
  {
    var q := lines[..i + 1];
    assert q[..i] == lines[..i];
    assert q[i] == lines[i];
    if i > 0 {
      assert q[i - 1] == lines[i - 1];
      assert lines[..i][i - 1] == lines[i - 1];
    }
  }

  /** Runs never reach across a line outside `p`: after such a line the runs of what
      follows are counted on their own. */
  lemma {:induction false} RunStartsAppend(a: seq<string>, b: seq<string>, p: string -> bool)
    requires |a| == 0 || !p(a[|a| - 1])
    ensures RunStarts(a + b, p) == RunStarts(a, p) + RunStarts(b, p)
    decreases |b|
  {
    if |b| == 0 {
      assert a + b == a;
    } else {
      RunStartsAppend(a, b[..|b| - 1], p);
      var s := a + b;
      assert s[..|s| - 1] == a + b[..|b| - 1];
      assert s[|s| - 1] == b[|b| - 1];
      if |b| > 1 {
        assert s[|s| - 2] == b[|b| - 2];
      } else if |s| > 1 {
        assert s[|s| - 2] == a[|a| - 1];
      }
    }
  }

  /** Walks the lines with an `in_table` flag and a `current_table` buffer, closing the
      buffer at the first line that is not a table line and after the last line. */
  method ParseTableRuns(lines: seq<string>) returns (tables: seq<seq<string>>)
    ensures tables == TableGroups(lines)
  {
    tables := [];
    var inTable := false;
    var current: seq<string> := [];
    for i := 0 to |lines|
      invariant inTable <==> i > 0 && IsTableLine(lines[i - 1])
      invariant inTable ==> |current| > 0 && tables + [current] == TableGroups(lines[..i])
      invariant !inTable ==> current == [] && tables == TableGroups(lines[..i])
    {
      var line := lines[i];
      RunsStep(lines, i, IsTableLine);
      ghost var g := TableGroups(lines[..i]);
      if IsTableLine(line) {
        if !inTable {
          assert TableGroups(lines[..i + 1]) == tables + [[line]];
          inTable := true;
          current := [];
          assert current + [line] == [line];
        } else {
          assert g[..|g| - 1] == tables && g[|g| - 1] == current;
          assert TableGroups(lines[..i + 1]) == tables + [current + [line]];
        }
        current := current + [line];
      } else {
        assert TableGroups(lines[..i + 1]) == g;
        if inTable && current != [] {
          tables := tables + [current];
          current := [];
        }
        inTable := false;
      }
    }
    assert lines[..|lines|] == lines;
    if current != [] {
      tables := tables + [current];
    }
  }

  // ---------------------------------------------------------------------------
  // The document
  // ---------------------------------------------------------------------------

  class SkillDocument {
    /** `filepath.exists()` */
    const present: bool
    var content: string
    var frontmatter: Frontmatter
    var sections: seq<string>
    var patternCount: nat
    var goodExamples: nat
    var badExamples: nat
    var tables: seq<seq<string>>

    /** Every field holds what the parse of `text` gives. */
    predicate ParsedFrom(text: string)
      reads this
    {
      && content == text
      && frontmatter == FrontmatterOf(text)
      && sections == Sections(text)
      && patternCount == PatternCount(text)
      && goodExamples == CountChar(text, GoodMark)
      && badExamples == CountChar(text, BadMark)
      && tables == TableGroups(Lines(text))
    }

    /** `SkillDocument(filepath)`: the fields are parsed from the file's text when it
        exists and stay empty otherwise. */
    constructor (present: bool, text: string)
      ensures this.present == present
      ensures present ==> ParsedFrom(text)
      ensures !present ==> content == "" && frontmatter == NoFrontmatter && sections == []
                           && patternCount == 0 && goodExamples == 0 && badExamples == 0 && tables == []
    {
      this.present := present;
      content := if present then text else "";
      frontmatter := NoFrontmatter;
      sections := [];
      patternCount := 0;
      goodExamples := 0;
      badExamples := 0;
      tables := [];
      new;
      if present {
        Parse();
      }
    }

    /** `_parse`, on the text the constructor read and the empty fields it set. */
    method Parse()
      modifies this`frontmatter, this`sections, this`patternCount, this`goodExamples, this`badExamples, this`tables
      requires frontmatter == NoFrontmatter && tables == []
      ensures ParsedFrom(content)
    {
      ParseFrontmatter();
      MergeIntoEmpty(FrontmatterOf(content));
      ParseSections();
      CountPatterns();
      CountExamples();
      ParseTables();
      assert [] + TableGroups(Lines(content)) == TableGroups(Lines(content));
    }

    method ParseFrontmatter()
      modifies this`frontmatter
      ensures frontmatter == Merge(old(frontmatter), FrontmatterOf(content))
    {
      frontmatter := Merge(frontmatter, FrontmatterOf(content));
    }

    method ParseSections()
      modifies this`sections
      ensures sections == Sections(content)
    {
      sections := Sections(content);
    }

    method CountPatterns()
      modifies this`patternCount
      ensures patternCount == PatternCount(content)
    {
      patternCount := PatternCount(content);
    }

    method CountExamples()
      modifies this`goodExamples, this`badExamples
      ensures goodExamples == CountChar(content, GoodMark)
      ensures badExamples == CountChar(content, BadMark)
    {
      goodExamples := CountChar(content, GoodMark);
      badExamples := CountChar(content, BadMark);
    }

    /** Appends the tables of the content to `tables`. */
    method ParseTables()
      modifies this`tables
      ensures tables == old(tables) + TableGroups(Lines(content))
    {
      var found := ParseTableRuns(Lines(content));
      tables := tables + found;
    }
  }
}
