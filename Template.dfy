/**
 * skills/skill-template-generator/scripts/generate_template.py: the input validators, the
 * tag-splitting expression, and the builders that write SKILL.md and references/SKILL.ja.md
 * for `n` pattern sections.
 *
 * A document is a list of pieces: runs of prose lines, H2 headings, tables and ✅/❌ example
 * markers. Its text is every line of every piece followed by a newline, which is the
 * string the generator concatenates. What a reader counts in a document (its H2 titles,
 * tables, table lines and markers) is summed up piece by piece in a `Tally`.
 */
module Template {
  import opened Text
  import opened Validator
  import opened SyncDocument
  import opened SyncChecker
  import opened TemplateText

  /** `AUTHOR` */
  const Author := "RyoMurakami1983"

  // ---------------------------------------------------------------------------
  // validate_skill_name
  // ---------------------------------------------------------------------------

  predicate IsRunChar(c: char) {
    IsAsciiLower(c) || IsAsciiDigit(c)
  }

  /** `[a-z0-9]+` */
  predicate IsRun(part: string) {
    |part| > 0 && forall k | 0 <= k < |part| :: IsRunChar(part[k])
  }

  /** `[a-z0-9]+(-[a-z0-9]+)*` over a whole string: every piece between hyphens is a run. */
  predicate IsKebab(s: string) {
    AllRuns(Split(s, '-'))
  }

  predicate AllRuns(parts: seq<string>) {
    forall k | 0 <= k < |parts| :: IsRun(parts[k])
  }

  /** `re.match(r'^[a-z0-9]+(-[a-z0-9]+)*$', name)`: `$` also matches in front of a newline
      that ends the string. */
  predicate KebabMatch(name: string) {
    || IsKebab(name)
    || (|name| > 0 && name[|name| - 1] == '\n' && IsKebab(name[..|name| - 1]))
  }

  function ValidateSkillName(name: string): bool {
    if |name| == 0 || |name| > 64 then false else KebabMatch(name)
  }

  /** Kebab case spelled out character by character: lowercase letters, digits and
      hyphens, no hyphen at either end and no two hyphens in a row. */
  predicate HyphenatedRuns(s: string) {
    && |s| > 0 && s[0] != '-' && s[|s| - 1] != '-'
    && (forall k | 0 <= k < |s| :: IsRunChar(s[k]) || s[k] == '-')
    && (forall k | 0 <= k < |s| - 1 :: s[k] == '-' ==> s[k + 1] != '-')
  }

  lemma {:induction false} AllRunsCons(part: string, rest: seq<string>)
    ensures AllRuns([part] + rest) <==> IsRun(part) && AllRuns(rest)
  {
    var all := [part] + rest;
    assert all[0] == part;
    assert forall k | 0 <= k < |rest| :: all[k + 1] == rest[k];
    if IsRun(part) && AllRuns(rest) {
      forall k | 0 <= k < |all| ensures IsRun(all[k]) {
        if k > 0 { assert all[k] == rest[k - 1]; }
      }
    }
  }

  lemma {:induction false} RunCons(c: char, part: string)
    ensures IsRun([c] + part) <==> IsRunChar(c) && (part == [] || IsRun(part))
  {
    var word := [c] + part;
    assert word[0] == c;
    assert forall k | 0 <= k < |part| :: word[k + 1] == part[k];
    if IsRunChar(c) && (part == [] || IsRun(part)) {
      forall k | 0 <= k < |word| ensures IsRunChar(word[k]) {
        if k > 0 { assert word[k] == part[k - 1]; }
      }
    }
  }

  /** A kebab name extended in front by one character of the same word. */
  lemma {:induction false} HyphenatedCons(c: char, t: string)
    requires |t| > 0 && t[0] != '-'
    ensures HyphenatedRuns([c] + t) <==> IsRunChar(c) && HyphenatedRuns(t)
  {
    var s := [c] + t;
    assert forall k | 0 <= k < |t| :: s[k + 1] == t[k];
    if IsRunChar(c) && HyphenatedRuns(t) {
      forall k | 0 <= k < |s| ensures IsRunChar(s[k]) || s[k] == '-' {
        if k > 0 { assert s[k] == t[k - 1]; }
      }
      forall k | 0 <= k < |s| - 1 ensures s[k] == '-' ==> s[k + 1] != '-' {
        if k > 0 { assert s[k] == t[k - 1] && s[k + 1] == t[k]; }
      }
    }
    if HyphenatedRuns(s) {
      forall k | 0 <= k < |t| ensures IsRunChar(t[k]) || t[k] == '-' {
        assert t[k] == s[k + 1];
      }
      forall k | 0 <= k < |t| - 1 ensures t[k] == '-' ==> t[k + 1] != '-' {
        assert t[k] == s[k + 1] && t[k + 1] == s[k + 2];
      }
    }
  }

  /** A kebab name extended in front by a one-character word and a hyphen. */
  lemma {:induction false} HyphenatedConsWord(c: char, u: string)
    ensures HyphenatedRuns([c, '-'] + u) <==> IsRunChar(c) && HyphenatedRuns(u)
  {
    var s := [c, '-'] + u;
    assert forall k | 0 <= k < |u| :: s[k + 2] == u[k];
    if IsRunChar(c) && HyphenatedRuns(u) {
      forall k | 0 <= k < |s| ensures IsRunChar(s[k]) || s[k] == '-' {
        if k > 1 { assert s[k] == u[k - 2]; }
      }
      forall k | 0 <= k < |s| - 1 ensures s[k] == '-' ==> s[k + 1] != '-' {
        if k > 1 { assert s[k] == u[k - 2] && s[k + 1] == u[k - 1]; }
        else if k == 1 { assert s[k + 1] == u[0]; }
      }
    }
    if HyphenatedRuns(s) {
      assert u[0] == s[2] && u[|u| - 1] == s[|s| - 1];
      assert s[1] == '-';
      forall k | 0 <= k < |u| ensures IsRunChar(u[k]) || u[k] == '-' {
        assert u[k] == s[k + 2];
      }
      forall k | 0 <= k < |u| - 1 ensures u[k] == '-' ==> u[k + 1] != '-' {
        assert u[k] == s[k + 2] && u[k + 1] == s[k + 3];
      }
    }
  }

  /** The split-based reading of the pattern and the character-level one agree. */
  lemma {:induction false} KebabIff(s: string)
    ensures IsKebab(s) <==> HyphenatedRuns(s)
    decreases |s|
  {
    var parts := Split(s, '-');
    if |s| == 0 {
      assert parts[0] == "";
    } else if s[0] == '-' {
      assert parts[0] == "";
    } else {
      var t := s[1..];
      var r := Split(t, '-');
      assert parts == [[s[0]] + r[0]] + r[1..];
      if |t| == 0 {
        assert r == [""];
        assert parts == [[s[0]] + []] + [];
        AllRunsCons([s[0]] + [], []);
        RunCons(s[0], []);
        assert s == [s[0]];
      } else if t[0] == '-' {
        var u := t[1..];
        assert r == [""] + Split(u, '-');
        assert r[0] == [] && r[1..] == Split(u, '-');
        AllRunsCons([s[0]] + [], Split(u, '-'));
        RunCons(s[0], []);
        KebabIff(u);
        assert s == [s[0], '-'] + u;
        HyphenatedConsWord(s[0], u);
      } else {
        var r' := Split(t[1..], '-');
        assert r == [[t[0]] + r'[0]] + r'[1..];
        assert r[0] != [];
        AllRunsCons([s[0]] + r[0], r[1..]);
        RunCons(s[0], r[0]);
        AllRunsCons(r[0], r[1..]);
        assert r == [r[0]] + r[1..];
        KebabIff(t);
        assert s == [s[0]] + t;
        HyphenatedCons(s[0], t);
      }
    }
  }

  /** A name without a final newline (the prompt strips its input) is accepted exactly
      when it is kebab case of at most 64 characters. */
  lemma {:induction false} ValidNames(name: string)
    requires |name| == 0 || name[|name| - 1] != '\n'
    ensures ValidateSkillName(name) <==> |name| <= 64 && HyphenatedRuns(name)
  {
    KebabIff(name);
  }

  /** `$` before a final newline: `validate_skill_name` accepts a kebab name followed by
      one newline. */
  lemma {:induction false} FinalNewlineAccepted(name: string)
    requires |name| < 64 && HyphenatedRuns(name)
    ensures ValidateSkillName(name + "\n")
  {
    KebabIff(name);
    assert (name + "\n")[..|name|] == name;
  }

  /** `1 <= len(desc) <= 100` */
  function ValidateDescription(description: string): bool {
    1 <= |description| <= 100
  }

  // ---------------------------------------------------------------------------
  // Tags: [tag.strip() for tag in tags_input.split(",") if tag.strip()]
  // ---------------------------------------------------------------------------

  function KeepStripped(parts: seq<string>): seq<string> {
    if |parts| == 0 then []
    else (if Strip(parts[0]) != [] then [Strip(parts[0])] else []) + KeepStripped(parts[1..])
  }

  function SplitTags(input: string): seq<string> {
    KeepStripped(Split(input, ','))
  }

  /** A tag as the prompt leaves it: non-empty, no comma, no whitespace at either end. */
  predicate IsTag(t: string) {
    |t| > 0 && ',' !in t && !IsSpace(t[0]) && !IsSpace(t[|t| - 1])
  }

  /** `s.strip()` is a piece of `s` with no whitespace at either end. */
  lemma {:induction false} StripShape(s: string)
    ensures var r := Strip(s);
            && (forall k | 0 <= k < |r| :: r[k] in s)
            && (r == [] || (!IsSpace(r[0]) && !IsSpace(r[|r| - 1])))
  {
    var l := LStrip(s);
    var r := Strip(s);
    assert r == l[..|r|];
    forall k | 0 <= k < |r| ensures r[k] in s {
      assert r[k] == l[k] == s[|s| - |l| + k];
    }
  }

  predicate AllTags(ts: seq<string>) {
    forall k | 0 <= k < |ts| :: IsTag(ts[k])
  }

  lemma {:induction false} KeptTags(parts: seq<string>)
    requires forall k | 0 <= k < |parts| :: ',' !in parts[k]
    ensures AllTags(KeepStripped(parts))
  {
    if |parts| > 0 {
      var rest := parts[1..];
      assert forall k | 0 <= k < |rest| :: ',' !in rest[k] by {
        forall k | 0 <= k < |rest| ensures ',' !in rest[k] { assert rest[k] == parts[k + 1]; }
      }
      KeptTags(rest);
      var h := Strip(parts[0]);
      var head := if h != [] then [h] else [];
      assert AllTags(head) by {
        if h != [] { StrippedTag(parts[0]); }
      }
      assert KeepStripped(parts) == head + KeepStripped(rest);
      AllTagsAppend(head, KeepStripped(rest));
    }
  }

  lemma {:induction false} AllTagsAppend(a: seq<string>, b: seq<string>)
    requires AllTags(a) && AllTags(b)
    ensures AllTags(a + b)
  {
    forall k | 0 <= k < |a + b| ensures IsTag((a + b)[k]) {
      if k < |a| { assert (a + b)[k] == a[k]; } else { assert (a + b)[k] == b[k - |a|]; }
    }
  }

  lemma {:induction false} StrippedTag(part: string)
    requires ',' !in part && Strip(part) != []
    ensures IsTag(Strip(part))
  {
    StripShape(part);
    var r := Strip(part);
    forall k | 0 <= k < |r| ensures r[k] != ',' { assert r[k] in part; }
  }

  /** Every tag the prompt keeps is non-empty, stripped and free of commas. */
  lemma {:induction false} SplitTagsAreTags(input: string)
    ensures AllTags(SplitTags(input))
  {
    KeptTags(Split(input, ','));
  }

  /** One tag per part that is not blank: `a,,b` and `a, ,b` give two tags. */
  lemma {:induction false} SplitTagsCount(parts: seq<string>)
    ensures |KeepStripped(parts)| == CountWhere(parts, IsNonBlank)
  {
    if |parts| > 0 {
      SplitTagsCount(parts[1..]);
    }
  }

  lemma {:induction false} KeepTags(tags: seq<string>)
    requires forall k | 0 <= k < |tags| :: IsTag(tags[k])
    ensures KeepStripped(tags) == tags
  {
    if |tags| > 0 {
      var t := tags[0];
      assert Strip(t) == t by {
        StripPlain(t, "");
        assert "" + t == t;
      }
      assert KeepStripped(tags) == [t] + KeepStripped(tags[1..]);
      KeepTags(tags[1..]);
      assert [t] + tags[1..] == tags;
    }
  }

  /** Round trip: tags typed as a comma-separated list come back as they were typed. */
  lemma {:induction false} SplitTagsOfJoin(tags: seq<string>)
    requires |tags| > 0
    requires forall k | 0 <= k < |tags| :: IsTag(tags[k])
    ensures SplitTags(Join(tags, ",")) == tags
  {
    assert "," == [','];
    SplitJoin(tags, ',');
    KeepTags(tags);
  }

  /** `len(self.tags) >= 1`: the tag prompt is asked again until this holds. */
  predicate TagsAccepted(tags: seq<string>) {
    |tags| >= 1
  }

  /** `1 <= self.pattern_count <= 20` */
  predicate PatternCountAccepted(n: int) {
    1 <= n <= 20
  }

  // ---------------------------------------------------------------------------
  // The title line: name.replace('-', ' ').title()
  // ---------------------------------------------------------------------------

  /** `str.title()` on ASCII text: a letter is upper-cased when the character before it is
      not a letter and lower-cased when it is; other characters are kept. */
  function TitleCase(s: string): (r: string)
    ensures |r| == |s|
  {
    seq(|s|, k requires 0 <= k < |s| =>
      if !IsAsciiLetter(s[k]) then s[k]
      else if k > 0 && IsAsciiLetter(s[k - 1]) then LowerChar(s[k])
      else UpperChar(s[k]))
  }

  function DisplayName(name: string): string {
    TitleCase(ReplaceChar(name, '-', ' '))
  }

  lemma {:induction false} CaseKeepsLetters(c: char)
    ensures IsAsciiLetter(UpperChar(c)) <==> IsAsciiLetter(c)
    ensures IsAsciiLetter(LowerChar(c)) <==> IsAsciiLetter(c)
    ensures LowerChar(UpperChar(c)) == LowerChar(c) && LowerChar(LowerChar(c)) == LowerChar(c)
    ensures UpperChar(UpperChar(c)) == UpperChar(c) && UpperChar(LowerChar(c)) == UpperChar(c)
  {
  }

  /** Title casing changes case only. */
  lemma {:induction false} TitleCaseLower(s: string)
    ensures Lower(TitleCase(s)) == Lower(s)
  {
    forall k | 0 <= k < |s| ensures Lower(TitleCase(s))[k] == Lower(s)[k] {
      CaseKeepsLetters(s[k]);
    }
  }

  /** Title casing a title changes nothing. */
  lemma {:induction false} TitleCaseIdempotent(s: string)
    ensures TitleCase(TitleCase(s)) == TitleCase(s)
  {
    var t := TitleCase(s);
    forall k | 0 <= k < |s| ensures TitleCase(t)[k] == t[k] {
      CaseKeepsLetters(s[k]);
      if k > 0 {
        CaseKeepsLetters(s[k - 1]);
      }
    }
  }

  /** A kebab name is in lower case: the heading differs from it only in case, with each
      hyphen turned into a space. */
  lemma {:induction false} DisplayNameLower(name: string)
    requires HyphenatedRuns(name)
    ensures Lower(DisplayName(name)) == ReplaceChar(name, '-', ' ')
  {
    var spaced := ReplaceChar(name, '-', ' ');
    TitleCaseLower(spaced);
    forall k | 0 <= k < |name| ensures Lower(spaced)[k] == spaced[k] {
      assert IsRunChar(name[k]) || name[k] == '-';
    }
  }

  /** Each word of the heading starts with a capital letter (or its digit). */
  lemma {:induction false} DisplayNameCapitals(name: string, k: int)
    requires HyphenatedRuns(name)
    requires 0 <= k < |name| && (k == 0 || name[k - 1] == '-')
    ensures DisplayName(name)[k] == UpperChar(name[k])
  {
    var spaced := ReplaceChar(name, '-', ' ');
    assert name[k] != '-' by {
      if k > 0 { assert name[k - 1] == '-'; }
    }
    assert spaced[k] == name[k];
    if k > 0 {
      assert spaced[k - 1] == ' ';
    }
  }

  // ---------------------------------------------------------------------------
  // Documents
  // ---------------------------------------------------------------------------

  /** A piece of a generated document: a run of prose lines, an H2 heading, a table
      framed by blank lines, or the first line of a ✅/❌ code example. */
  datatype Piece =
    | Prose(lines: seq<string>)
    | Heading(title: string)
    | Table(rows: seq<string>)
    | Marker(correct: bool, note: string)

  function PieceLines(p: Piece): seq<string> {
    match p
    case Prose(lines) => lines
    case Heading(title) => ["## " + title]
    case Table(rows) => [""] + rows + [""]
    case Marker(correct, note) =>
      if correct then ["// " + [GoodMark] + " CORRECT - " + note]
      else ["// " + [BadMark] + " WRONG - " + note]
  }

  function DocLines(doc: seq<Piece>): seq<string> {
    if |doc| == 0 then [] else PieceLines(doc[0]) + DocLines(doc[1..])
  }

  /** The text of a document: each of its lines followed by a newline. */
  function Render(doc: seq<Piece>): string {
    Unlines(DocLines(doc))
  }

  lemma {:induction false} DocLinesAppend(a: seq<Piece>, b: seq<Piece>)
    ensures DocLines(a + b) == DocLines(a) + DocLines(b)
  {
    if |a| == 0 {
      assert a + b == b;
    } else {
      assert (a + b)[0] == a[0] && (a + b)[1..] == a[1..] + b;
      DocLinesAppend(a[1..], b);
    }
  }

  /** Appending pieces appends their text: `content += ...` builds the document. */
  lemma {:induction false} RenderAppend(a: seq<Piece>, b: seq<Piece>)
    ensures Render(a + b) == Render(a) + Render(b)
  {
    DocLinesAppend(a, b);
    UnlinesAppend(DocLines(a), DocLines(b));
  }

  /** What a reader counts in a document: its H2 titles in order, its tables and its
      ✅ and ❌ marks. */
  datatype Tally = Tally(titles: seq<string>, tables: nat, good: nat, bad: nat)

  function Plus(x: Tally, y: Tally): Tally {
    Tally(x.titles + y.titles, x.tables + y.tables, x.good + y.good, x.bad + y.bad)
  }

  lemma {:induction false} PlusAssoc(x: Tally, y: Tally, z: Tally)
    ensures Plus(x, Plus(y, z)) == Plus(Plus(x, y), z)
  {
    assert x.titles + (y.titles + z.titles) == (x.titles + y.titles) + z.titles;
  }

  function PieceTally(p: Piece): Tally {
    match p
    case Prose(_) => Tally([], 0, 0, 0)
    case Heading(title) => Tally([title], 0, 0, 0)
    case Table(_) => Tally([], 1, 0, 0)
    case Marker(correct, _) => if correct then Tally([], 0, 1, 0) else Tally([], 0, 0, 1)
  }

  function Measure(doc: seq<Piece>): Tally {
    if |doc| == 0 then Tally([], 0, 0, 0) else Plus(PieceTally(doc[0]), Measure(doc[1..]))
  }

  lemma {:induction false} MeasureAppend(a: seq<Piece>, b: seq<Piece>)
    ensures Measure(a + b) == Plus(Measure(a), Measure(b))
  {
    if |a| == 0 {
      assert a + b == b;
    } else {
      assert (a + b)[0] == a[0] && (a + b)[1..] == a[1..] + b;
      MeasureAppend(a[1..], b);
      PlusAssoc(PieceTally(a[0]), Measure(a[1..]), Measure(b));
    }
  }

  /** Every piece is what it claims to be: prose lines that no reader takes for a heading,
      a table line or an example mark; titles with no whitespace around them; tables of
      at least one line, each starting with `|`; notes without a mark. */
  predicate PieceOk(p: Piece) {
    match p
    case Prose(lines) => AllProse(lines)
    case Heading(title) => TitleOk(title)
    case Table(rows) => |rows| > 0 && AllRows(rows)
    case Marker(_, note) => Plain(note)
  }

  predicate WellFormed(doc: seq<Piece>) {
    forall k | 0 <= k < |doc| :: PieceOk(doc[k])
  }

  lemma {:induction false} WellFormedAppend(a: seq<Piece>, b: seq<Piece>)
    requires WellFormed(a) && WellFormed(b)
    ensures WellFormed(a + b)
  {
    assert forall k | |a| <= k < |a + b| :: (a + b)[k] == b[k - |a|];
  }

  /** An H2 heading and the prose under it. */
  function Section(title: string, lines: seq<string>): seq<Piece> {
    [Heading(title), Prose(lines)]
  }

  /** The first line of a code example and the prose after it. */
  function Example(correct: bool, note: string, lines: seq<string>): seq<Piece> {
    [Marker(correct, note), Prose(lines)]
  }

  /** A table and the prose after it. */
  function TableThen(rows: seq<string>, lines: seq<string>): seq<Piece> {
    [Table(rows), Prose(lines)]
  }

  /** Two tallies without titles add up to one without titles. */
  lemma {:induction false} PlusUntitled(x: Tally, y: Tally)
    requires x.titles == [] && y.titles == []
    ensures Plus(x, y) == Tally([], x.tables + y.tables, x.good + y.good, x.bad + y.bad)
  {
    var r := Plus(x, y);
    assert |r.titles| == 0;
  }

  /** A piece alone counts as itself. */
  lemma {:induction false} MeasureOne(p: Piece)
    ensures Measure([p]) == PieceTally(p)
  {
    var t := PieceTally(p);
    var zero := Tally([], 0, 0, 0);
    assert Measure([p][1..]) == zero by { assert [p][1..] == []; }
    assert Measure([p]) == Plus(t, zero);
    assert t.titles + [] == t.titles;
    assert Plus(t, zero) == Tally(t.titles, t.tables, t.good, t.bad);
  }

  lemma {:induction false} MeasurePair(p: Piece, q: Piece)
    ensures Measure([p, q]) == Plus(PieceTally(p), PieceTally(q))
  {
    assert [p, q][1..] == [q];
    MeasureOne(q);
  }

  lemma {:induction false} SectionMeasure(title: string, lines: seq<string>)
    ensures Measure(Section(title, lines)) == Tally([title], 0, 0, 0)
  {
    MeasurePair(Heading(title), Prose(lines));
    assert [title] + [] == [title];
  }

  lemma {:induction false} ExampleMeasure(correct: bool, note: string, lines: seq<string>)
    ensures correct ==> Measure(Example(correct, note, lines)) == Tally([], 0, 1, 0)
    ensures !correct ==> Measure(Example(correct, note, lines)) == Tally([], 0, 0, 1)
  {
    MeasurePair(Marker(correct, note), Prose(lines));
    PlusUntitled(PieceTally(Marker(correct, note)), PieceTally(Prose(lines)));
  }

  lemma {:induction false} TableThenMeasure(rows: seq<string>, lines: seq<string>)
    ensures Measure(TableThen(rows, lines)) == Tally([], 1, 0, 0)
  {
    MeasurePair(Table(rows), Prose(lines));
    PlusUntitled(PieceTally(Table(rows)), PieceTally(Prose(lines)));
  }

  // ---------------------------------------------------------------------------
  // The two languages
  // ---------------------------------------------------------------------------

  /** SKILL.md is written in English, references/SKILL.ja.md in Japanese. */
  datatype Language = English | Japanese

  /** The fixed prose of one language's document, in the order it appears. */
  datatype Wording = Wording(
    lang: Language,
    relatedSkills: seq<string>, whenToUse: seq<string>, principles: seq<string>,
    patternName: string,
    opening: seq<string>, patternWhenToUse: seq<string>, configuration: seq<string>,
    advanced: seq<string>, closing: seq<string>,
    pitfallProblem: seq<string>, pitfallWrong: string, pitfallSolution: seq<string>,
    pitfallRight: string, pitfallMore: seq<string>,
    antiPatternWhat: seq<string>, antiPatternWrong: string, antiPatternWhy: seq<string>,
    antiPatternRight: string, antiPatternBetter: seq<string>,
    furtherReading: seq<string>, changelog: seq<string>, license: seq<string>)

  function Words(lang: Language): Wording {
    match lang
    case English =>
      Wording(English,
              EnRelatedSkillsHint, EnWhenToUseList, EnPrinciplesList,
              EnPatternName,
              EnPatternOpening, EnPatternWhenToUse, EnPatternConfiguration,
              EnPatternAdvanced, EnPatternClosing,
              EnPitfallProblem, EnPitfallWrongNote, EnPitfallSolution,
              EnPitfallRightNote, EnPitfallMore,
              EnAntiPatternWhat, EnAntiPatternWrongNote, EnAntiPatternWhy,
              EnAntiPatternRightNote, EnAntiPatternBetter,
              EnFurtherReading, EnChangelogNote, EnLicenseNote)
    case Japanese =>
      Wording(Japanese,
              JaRelatedSkillsHint, JaWhenToUseList, JaPrinciplesList,
              JaPatternName,
              JaPatternOpening, JaPatternWhenToUse, JaPatternConfiguration,
              JaPatternAdvanced, JaPatternClosing,
              JaPitfallProblem, JaPitfallWrongNote, JaPitfallSolution,
              JaPitfallRightNote, JaPitfallMore,
              JaAntiPatternWhat, JaAntiPatternWrongNote, JaAntiPatternWhy,
              JaAntiPatternRightNote, JaAntiPatternBetter,
              JaFurtherReading, JaChangelogNote, JaLicenseNote)
  }

  function ScenarioRows(lang: Language, i: nat, n: nat): seq<string> {
    if lang == English then EnScenarioRows(i, n) else JaScenarioRows(i, n)
  }

  function Signature(lang: Language, author: string, date: string): seq<string> {
    if lang == English then EnSignature(author, date) else JaSignature(author, date)
  }

  // ---------------------------------------------------------------------------
  // generate_skill_md and generate_skill_ja_md
  // ---------------------------------------------------------------------------

  /** A frontmatter line `key: value`. */
  function FieldLine(key: string, value: string): string {
    key + ": " + value
  }

  /** `tags: [...]`: the tags joined by `", "` inside brackets. */
  function TagsLine(tags: seq<string>): string {
    "tags: [" + Join(tags, ", ") + "]"
  }

  function TitleLine(name: string): string {
    "# " + DisplayName(name)
  }

  /** The YAML frontmatter between its `---` lines. */
  function FrontmatterLines(name: string, description: string, tags: seq<string>): seq<string> {
    ["---"] + Fields(name, description, tags) + ["---"]
  }

  function Fields(name: string, description: string, tags: seq<string>): seq<string> {
    [FieldLine("name", name),
     FieldLine("description", description),
     "invocable: false",
     TagsLine(tags),
     FieldLine("author", Author)]
  }

  /** The frontmatter and the `# ` title line, the same in both languages. */
  function FrontLines(name: string, description: string, tags: seq<string>): seq<string> {
    FrontmatterLines(name, description, tags) + ["", TitleLine(name), ""]
  }

  function Head(w: Wording, name: string, description: string, tags: seq<string>): seq<Piece> {
    [Prose(FrontLines(name, description, tags))]
    + Section("Related Skills", w.relatedSkills)
    + Section("When to Use This Skill", w.whenToUse)
    + Section("Core Principles", w.principles)
  }

  /** `generate_pattern_section(i)` (`generate_pattern_section_ja(i)`) in a document of
      `n` patterns. */
  function Pattern(w: Wording, i: nat, n: nat): seq<Piece> {
    Section(PatternTitle(i, w.patternName), w.opening)
    + Example(true, BasicNote, w.patternWhenToUse)
    + TableThen(ScenarioRows(w.lang, i, n), w.configuration)
    + Example(true, ConfigurationNote, w.advanced)
    + Example(true, AdvancedNote, w.closing)
  }

  /** Pattern sections 1 to `k`. */
  function Patterns(w: Wording, k: nat, n: nat): seq<Piece> {
    if k == 0 then [] else Patterns(w, k - 1, n) + Pattern(w, k, n)
  }

  const FurtherReadingTitle := "Related Patterns " + "& Further Reading"

  function Pitfalls(w: Wording): seq<Piece> {
    Section("Common Pitfalls", w.pitfallProblem)
    + Example(false, w.pitfallWrong, w.pitfallSolution)
    + Example(true, w.pitfallRight, w.pitfallMore)
  }

  function AntiPatterns(w: Wording): seq<Piece> {
    Section("Anti-Patterns", w.antiPatternWhat)
    + Example(false, w.antiPatternWrong, w.antiPatternWhy)
    + Example(true, w.antiPatternRight, w.antiPatternBetter)
  }

  /** The closing sections, signed with the given author and date texts. */
  function Closing(w: Wording, author: string, date: string): seq<Piece> {
    Section(FurtherReadingTitle, w.furtherReading)
    + Section("Changelog", w.changelog)
    + Section("License", w.license + Signature(w.lang, author, date))
  }

  function Footer(w: Wording, author: string, date: string): seq<Piece> {
    Pitfalls(w) + AntiPatterns(w) + Closing(w, author, date)
  }

  /** The document for `n` patterns, signed with the given author and date texts. */
  function Document(w: Wording, name: string, description: string, tags: seq<string>,
                    n: nat, author: string, date: string): seq<Piece> {
    Head(w, name, description, tags) + Patterns(w, n, n) + Footer(w, author, date)
  }

  /** The document as the generator writes it: the footer is no f-string, so the
      signature carries the placeholder texts themselves. */
  function AsWritten(lang: Language, name: string, description: string, tags: seq<string>,
                     n: nat): seq<Piece> {
    Document(Words(lang), name, description, tags, n, AuthorPlaceholder, DatePlaceholder)
  }

  /** The document as intended: the signature names `AUTHOR` and today's date. */
  function Intended(lang: Language, name: string, description: string, tags: seq<string>,
                    n: nat, today: string): seq<Piece> {
    Document(Words(lang), name, description, tags, n, Author, today)
  }

  /** Appending a step to a document built so far. */
  lemma {:induction false} RenderThen(a: seq<Piece>, b: seq<Piece>, c: seq<Piece>)
    ensures Render(a + b) + Render(c) == Render(a + (b + c))
  {
    RenderAppend(a + b, c);
    assert a + b + c == a + (b + c);
  }

  /** `generate_skill_md`: the head, one section per pattern, then the footer, whose
      signature lines are the placeholder texts themselves. */
  method GenerateSkillMd(name: string, description: string, tags: seq<string>, n: nat)
    returns (content: string)
    ensures content == Render(AsWritten(English, name, description, tags, n))
  {
    var w := Words(English);
    var head := Head(w, name, description, tags);
    content := Render(head);
    assert head + Patterns(w, 0, n) == head;
    for i := 1 to n + 1
      invariant content == Render(head + Patterns(w, i - 1, n))
    {
      RenderThen(head, Patterns(w, i - 1, n), Pattern(w, i, n));
      content := content + Render(Pattern(w, i, n));
    }
    RenderAppend(head + Patterns(w, n, n), Footer(w, AuthorPlaceholder, DatePlaceholder));
    content := content + Render(Footer(w, AuthorPlaceholder, DatePlaceholder));
  }

  /** `generate_skill_ja_md`, built the same way. */
  method GenerateSkillJaMd(name: string, description: string, tags: seq<string>, n: nat)
    returns (content: string)
    ensures content == Render(AsWritten(Japanese, name, description, tags, n))
  {
    var w := Words(Japanese);
    var head := Head(w, name, description, tags);
    content := Render(head);
    assert head + Patterns(w, 0, n) == head;
    for i := 1 to n + 1
      invariant content == Render(head + Patterns(w, i - 1, n))
    {
      RenderThen(head, Patterns(w, i - 1, n), Pattern(w, i, n));
      content := content + Render(Pattern(w, i, n));
    }
    RenderAppend(head + Patterns(w, n, n), Footer(w, AuthorPlaceholder, DatePlaceholder));
    content := content + Render(Footer(w, AuthorPlaceholder, DatePlaceholder));
  }

  // ---------------------------------------------------------------------------
  // What the documents hold
  // ---------------------------------------------------------------------------

  const HeadTitles: seq<string> := ["Related Skills", "When to Use This Skill", "Core Principles"]
  const FooterTitles: seq<string> :=
    ["Common Pitfalls", "Anti-Patterns", FurtherReadingTitle, "Changelog", "License"]

  /** The titles of pattern sections 1 to `k`. */
  function PatternTitles(k: nat, placeholder: string): (r: seq<string>)
    ensures |r| == k
    ensures forall j | 0 <= j < k :: r[j] == PatternTitle(j + 1, placeholder)
  {
    if k == 0 then [] else PatternTitles(k - 1, placeholder) + [PatternTitle(k, placeholder)]
  }

  /** The H2 titles of a document of `n` patterns, in order. */
  function Titles(n: nat, placeholder: string): (r: seq<string>)
    ensures |r| == n + 8
  {
    HeadTitles + PatternTitles(n, placeholder) + FooterTitles
  }

  lemma {:induction false} HeadMeasure(w: Wording, name: string, description: string, tags: seq<string>)
    ensures Measure(Head(w, name, description, tags)) == Tally(HeadTitles, 0, 0, 0)
  {
    var front := [Prose(FrontLines(name, description, tags))];
    var a := Section("Related Skills", w.relatedSkills);
    var b := Section("When to Use This Skill", w.whenToUse);
    var c := Section("Core Principles", w.principles);
    MeasureOne(front[0]);
    SectionMeasure("Related Skills", w.relatedSkills);
    SectionMeasure("When to Use This Skill", w.whenToUse);
    SectionMeasure("Core Principles", w.principles);
    MeasureAppend(front, a);
    MeasureAppend(front + a, b);
    MeasureAppend(front + a + b, c);
  }

  /** A pattern section: one title, one table, three ✅ examples. */
  lemma {:induction false} PatternMeasure(w: Wording, i: nat, n: nat)
    ensures Measure(Pattern(w, i, n)) == Tally([PatternTitle(i, w.patternName)], 1, 3, 0)
  {
    var a := Section(PatternTitle(i, w.patternName), w.opening);
    var b := Example(true, BasicNote, w.patternWhenToUse);
    var c := TableThen(ScenarioRows(w.lang, i, n), w.configuration);
    var d := Example(true, ConfigurationNote, w.advanced);
    var e := Example(true, AdvancedNote, w.closing);
    SectionMeasure(PatternTitle(i, w.patternName), w.opening);
    ExampleMeasure(true, BasicNote, w.patternWhenToUse);
    TableThenMeasure(ScenarioRows(w.lang, i, n), w.configuration);
    ExampleMeasure(true, ConfigurationNote, w.advanced);
    ExampleMeasure(true, AdvancedNote, w.closing);
    MeasureAppend(a, b);
    MeasureAppend(a + b, c);
    MeasureAppend(a + b + c, d);
    MeasureAppend(a + b + c + d, e);
    assert [PatternTitle(i, w.patternName)] + [] + [] + [] + [] == [PatternTitle(i, w.patternName)];
  }

  lemma {:induction false} PatternsMeasure(w: Wording, k: nat, n: nat)
    ensures Measure(Patterns(w, k, n)) == Tally(PatternTitles(k, w.patternName), k, 3 * k, 0)
  {
    if k > 0 {
      PatternsMeasure(w, k - 1, n);
      PatternMeasure(w, k, n);
      MeasureAppend(Patterns(w, k - 1, n), Pattern(w, k, n));
    }
  }

  /** A section followed by a wrong and a right example counts one title and one example
      of each kind. */
  lemma {:induction false} SectionExamplesMeasure(a: seq<Piece>, b: seq<Piece>, c: seq<Piece>, title: string)
    requires Measure(a) == Tally([title], 0, 0, 0)
    requires Measure(b) == Tally([], 0, 0, 1)
    requires Measure(c) == Tally([], 0, 1, 0)
    ensures Measure(a + b + c) == Tally([title], 0, 1, 1)
  {
    MeasureAppend(a, b);
    MeasureAppend(a + b, c);
    assert [title] + [] + [] == [title];
  }

  lemma {:induction false} PitfallsMeasure(w: Wording)
    ensures Measure(Pitfalls(w)) == Tally(["Common Pitfalls"], 0, 1, 1)
  {
    SectionMeasure("Common Pitfalls", w.pitfallProblem);
    ExampleMeasure(false, w.pitfallWrong, w.pitfallSolution);
    ExampleMeasure(true, w.pitfallRight, w.pitfallMore);
    SectionExamplesMeasure(
      Section("Common Pitfalls", w.pitfallProblem),
      Example(false, w.pitfallWrong, w.pitfallSolution),
      Example(true, w.pitfallRight, w.pitfallMore),
      "Common Pitfalls");
  }

  lemma {:induction false} AntiPatternsMeasure(w: Wording)
    ensures Measure(AntiPatterns(w)) == Tally(["Anti-Patterns"], 0, 1, 1)
  {
    SectionMeasure("Anti-Patterns", w.antiPatternWhat);
    ExampleMeasure(false, w.antiPatternWrong, w.antiPatternWhy);
    ExampleMeasure(true, w.antiPatternRight, w.antiPatternBetter);
    SectionExamplesMeasure(
      Section("Anti-Patterns", w.antiPatternWhat),
      Example(false, w.antiPatternWrong, w.antiPatternWhy),
      Example(true, w.antiPatternRight, w.antiPatternBetter),
      "Anti-Patterns");
  }

  lemma {:induction false} ClosingMeasure(w: Wording, author: string, date: string)
    ensures Measure(Closing(w, author, date))
         == Tally([FurtherReadingTitle, "Changelog", "License"], 0, 0, 0)
  {
    var signed := w.license + Signature(w.lang, author, date);
    var a := Section(FurtherReadingTitle, w.furtherReading);
    var b := Section("Changelog", w.changelog);
    var c := Section("License", signed);
    assert Closing(w, author, date) == a + b + c;
    ThreeSectionsMeasure(FurtherReadingTitle, w.furtherReading, "Changelog", w.changelog,
                         "License", signed);
  }

  lemma {:induction false} ThreeSectionsMeasure(t1: string, l1: seq<string>, t2: string, l2: seq<string>,
                             t3: string, l3: seq<string>)
    ensures Measure(Section(t1, l1) + Section(t2, l2) + Section(t3, l3)) == Tally([t1, t2, t3], 0, 0, 0)
  {
    SectionMeasure(t1, l1);
    SectionMeasure(t2, l2);
    SectionMeasure(t3, l3);
    MeasureAppend(Section(t1, l1), Section(t2, l2));
    MeasureAppend(Section(t1, l1) + Section(t2, l2), Section(t3, l3));
    assert [t1] + [t2] + [t3] == [t1, t2, t3];
  }


  lemma {:induction false} FooterMeasure(w: Wording, author: string, date: string)
    ensures Measure(Footer(w, author, date)) == Tally(FooterTitles, 0, 2, 2)
  {
    var p := Pitfalls(w);
    var q := AntiPatterns(w);
    var r := Closing(w, author, date);
    PitfallsMeasure(w);
    AntiPatternsMeasure(w);
    ClosingMeasure(w, author, date);
    MeasureAppend(p, q);
    MeasureAppend(p + q, r);
    FooterTitlesInOrder();
  }

  lemma FooterTitlesInOrder()
    ensures ["Common Pitfalls"] + ["Anti-Patterns"] + [FurtherReadingTitle, "Changelog", "License"]
         == FooterTitles
  {
  }


  /** What a generated document holds: the head's three titles, one titled section per
      pattern and the footer's five titles, in this order; one table per pattern; three
      ✅ examples per pattern and two in the footer; two ❌ examples. */
  lemma {:induction false} DocumentMeasure(w: Wording, name: string, description: string, tags: seq<string>,
                        n: nat, author: string, date: string)
    ensures Measure(Document(w, name, description, tags, n, author, date))
         == Tally(Titles(n, w.patternName), n, 3 * n + 2, 2)
  {
    HeadMeasure(w, name, description, tags);
    PatternsMeasure(w, n, n);
    FooterMeasure(w, author, date);
    MeasureAppend(Head(w, name, description, tags), Patterns(w, n, n));
    MeasureAppend(Head(w, name, description, tags) + Patterns(w, n, n), Footer(w, author, date));
  }

  // ---------------------------------------------------------------------------
  // The documents are well formed
  // ---------------------------------------------------------------------------

  /** The fixed text of a language is made of plain prose, plain notes and a title. */
  predicate WordingOk(w: Wording) {
    && AllProse(w.relatedSkills) && AllProse(w.whenToUse) && AllProse(w.principles)
    && TitleOk(w.patternName)
    && AllProse(w.opening) && AllProse(w.patternWhenToUse) && AllProse(w.configuration)
    && AllProse(w.advanced) && AllProse(w.closing)
    && AllProse(w.pitfallProblem) && Plain(w.pitfallWrong) && AllProse(w.pitfallSolution)
    && Plain(w.pitfallRight) && AllProse(w.pitfallMore)
    && AllProse(w.antiPatternWhat) && Plain(w.antiPatternWrong) && AllProse(w.antiPatternWhy)
    && Plain(w.antiPatternRight) && AllProse(w.antiPatternBetter)
    && AllProse(w.furtherReading) && AllProse(w.changelog) && AllProse(w.license)
  }

  lemma EnglishWordingOk()
    ensures WordingOk(Words(English))
  {
    EnRelatedSkillsHintProse();
    EnWhenToUseListProse();
    EnPrinciplesListProse();
    EnPatternOpeningProse();
    EnPatternWhenToUseProse();
    EnPatternConfigurationProse();
    EnPatternAdvancedProse();
    EnPatternClosingProse();
    EnPitfallProblemProse();
    EnPitfallSolutionProse();
    EnPitfallMoreProse();
    EnAntiPatternWhatProse();
    EnAntiPatternWhyProse();
    EnAntiPatternBetterProse();
    EnFurtherReadingProse();
    EnChangelogNoteProse();
    EnLicenseNoteProse();
    HeadTitlesOk();
    NotesPlain();
  }

  lemma JapaneseWordingOk()
    ensures WordingOk(Words(Japanese))
  {
    JaRelatedSkillsHintProse();
    JaWhenToUseListProse();
    JaPrinciplesListProse();
    JaPatternOpeningProse();
    JaPatternWhenToUseProse();
    JaPatternConfigurationProse();
    JaPatternAdvancedProse();
    JaPatternClosingProse();
    JaPitfallProblemProse();
    JaPitfallSolutionProse();
    JaPitfallMoreProse();
    JaAntiPatternWhatProse();
    JaAntiPatternWhyProse();
    JaAntiPatternBetterProse();
    JaFurtherReadingProse();
    JaChangelogNoteProse();
    JaLicenseNoteProse();
    HeadTitlesOk();
    NotesPlain();
  }

  lemma {:induction false} WordsOk(lang: Language)
    ensures WordingOk(Words(lang))
  {
    if lang == English { EnglishWordingOk(); } else { JapaneseWordingOk(); }
  }

  lemma {:induction false} AllProseAppend(a: seq<string>, b: seq<string>)
    requires AllProse(a) && AllProse(b)
    ensures AllProse(a + b)
  {
    assert forall k | |a| <= k < |a + b| :: (a + b)[k] == b[k - |a|];
  }

  lemma {:induction false} SectionOk(title: string, lines: seq<string>)
    requires TitleOk(title) && AllProse(lines)
    ensures WellFormed(Section(title, lines))
  {
  }

  lemma {:induction false} ExampleOk(correct: bool, note: string, lines: seq<string>)
    requires Plain(note) && AllProse(lines)
    ensures WellFormed(Example(correct, note, lines))
  {
  }

  lemma {:induction false} TableThenOk(rows: seq<string>, lines: seq<string>)
    requires |rows| > 0 && AllRows(rows) && AllProse(lines)
    ensures WellFormed(TableThen(rows, lines))
  {
  }

  lemma {:induction false} JoinPlain(parts: seq<string>, sep: string)
    requires Plain(sep) && forall k | 0 <= k < |parts| :: Plain(parts[k])
    ensures Plain(Join(parts, sep))
  {
    if |parts| > 1 {
      JoinPlain(parts[1..], sep);
      PlainCat(parts[0], sep);
      PlainCat(parts[0] + sep, Join(parts[1..], sep));
    }
  }

  lemma {:induction false} DisplayNamePlain(name: string)
    requires Plain(name)
    ensures Plain(DisplayName(name))
  {
    var spaced := ReplaceChar(name, '-', ' ');
    assert Plain(spaced);
    forall k | 0 <= k < |spaced| ensures TitleCase(spaced)[k] == spaced[k] || IsAsciiLetter(TitleCase(spaced)[k]) {
      CaseKeepsLetters(spaced[k]);
    }
  }

  /** Plain inputs: no newline (the prompts strip their answers) and no ✅/❌ mark. */
  predicate PlainInputs(name: string, description: string, tags: seq<string>) {
    Plain(name) && Plain(description) && forall k | 0 <= k < |tags| :: Plain(tags[k])
  }

  lemma {:induction false} FieldLineProse(key: string, value: string)
    requires |key| >= 1 && IsAsciiLower(key[0]) && Plain(key) && Plain(value)
    ensures ProseOk(FieldLine(key, value))
  {
    PlainCat(key, ": ");
    ProseCat(key + ": ", value);
  }

  lemma {:induction false} BracketedProse(key: string, inner: string)
    requires |key| >= 3 && ProseOk(key) && Plain(inner)
    ensures ProseOk(key + inner + "]")
  {
    ProseCat(key, inner);
    ProseCat(key + inner, "]");
  }

  lemma {:induction false} TagsLineProse(tags: seq<string>)
    requires forall k | 0 <= k < |tags| :: Plain(tags[k])
    ensures ProseOk(TagsLine(tags))
  {
    JoinPlain(tags, ", ");
    BracketedProse("tags: [", Join(tags, ", "));
  }

  lemma {:induction false} TitleLineProse(name: string)
    requires Plain(name)
    ensures ProseOk(TitleLine(name))
  {
    DisplayNamePlain(name);
    PlainCat("# ", DisplayName(name));
    assert ("# " + DisplayName(name))[..2] == "# ";
  }

  lemma {:induction false} FieldsProse(name: string, description: string, tags: seq<string>)
    requires PlainInputs(name, description, tags)
    ensures AllProse(Fields(name, description, tags))
  {
    var f := Fields(name, description, tags);
    assert ProseOk(f[0]) by { FieldLineProse("name", name); }
    assert ProseOk(f[1]) by { FieldLineProse("description", description); }
    assert ProseOk(f[2]) by { assert ProseOk("invocable: false") by {} }
    assert ProseOk(f[3]) by { TagsLineProse(tags); }
    assert ProseOk(f[4]) by { FieldLineProse("author", Author); }
  }

  lemma {:induction false} FrontmatterProse(name: string, description: string, tags: seq<string>)
    requires PlainInputs(name, description, tags)
    ensures AllProse(FrontmatterLines(name, description, tags))
  {
    FieldsProse(name, description, tags);
    assert ProseOk("---") by {}
    AllProseAppend(["---"], Fields(name, description, tags));
    AllProseAppend(["---"] + Fields(name, description, tags), ["---"]);
  }

  lemma {:induction false} FrontLinesProse(name: string, description: string, tags: seq<string>)
    requires PlainInputs(name, description, tags)
    ensures AllProse(FrontLines(name, description, tags))
  {
    FrontmatterProse(name, description, tags);
    TitleLineProse(name);
    assert ProseOk("") by {}
    AllProseAppend(FrontmatterLines(name, description, tags), ["", TitleLine(name), ""]);
  }

  lemma {:induction false} HeadWellFormed(w: Wording, name: string, description: string, tags: seq<string>)
    requires WordingOk(w) && PlainInputs(name, description, tags)
    ensures WellFormed(Head(w, name, description, tags))
  {
    var front := [Prose(FrontLines(name, description, tags))];
    var a := Section("Related Skills", w.relatedSkills);
    var b := Section("When to Use This Skill", w.whenToUse);
    var c := Section("Core Principles", w.principles);
    FrontLinesProse(name, description, tags);
    HeadTitlesOk();
    SectionOk("Related Skills", w.relatedSkills);
    SectionOk("When to Use This Skill", w.whenToUse);
    SectionOk("Core Principles", w.principles);
    WellFormedAppend(front, a);
    WellFormedAppend(front + a, b);
    WellFormedAppend(front + a + b, c);
  }

  lemma {:induction false} ScenarioRowsOk(lang: Language, i: nat, n: nat)
    ensures |ScenarioRows(lang, i, n)| > 0 && AllRows(ScenarioRows(lang, i, n))
  {
    if lang == English { EnScenarioRowsOk(i, n); } else { JaScenarioRowsOk(i, n); }
  }

  lemma {:induction false} PatternWellFormed(w: Wording, i: nat, n: nat)
    requires WordingOk(w)
    ensures WellFormed(Pattern(w, i, n))
  {
    var a := Section(PatternTitle(i, w.patternName), w.opening);
    var b := Example(true, BasicNote, w.patternWhenToUse);
    var c := TableThen(ScenarioRows(w.lang, i, n), w.configuration);
    var d := Example(true, ConfigurationNote, w.advanced);
    var e := Example(true, AdvancedNote, w.closing);
    PatternTitleOk(i, w.patternName);
    NotesPlain();
    ScenarioRowsOk(w.lang, i, n);
    SectionOk(PatternTitle(i, w.patternName), w.opening);
    ExampleOk(true, BasicNote, w.patternWhenToUse);
    TableThenOk(ScenarioRows(w.lang, i, n), w.configuration);
    ExampleOk(true, ConfigurationNote, w.advanced);
    ExampleOk(true, AdvancedNote, w.closing);
    WellFormedAppend(a, b);
    WellFormedAppend(a + b, c);
    WellFormedAppend(a + b + c, d);
    WellFormedAppend(a + b + c + d, e);
  }

  lemma {:induction false} PatternsWellFormed(w: Wording, k: nat, n: nat)
    requires WordingOk(w)
    ensures WellFormed(Patterns(w, k, n))
  {
    if k > 0 {
      PatternsWellFormed(w, k - 1, n);
      PatternWellFormed(w, k, n);
      WellFormedAppend(Patterns(w, k - 1, n), Pattern(w, k, n));
    }
  }

  lemma {:induction false} SignatureProse(lang: Language, author: string, date: string)
    requires Plain(author) && Plain(date)
    ensures AllProse(Signature(lang, author, date))
  {
    if lang == English { EnSignatureProse(author, date); } else { JaSignatureProse(author, date); }
  }

  lemma {:induction false} FooterWellFormed(w: Wording, author: string, date: string)
    requires WordingOk(w) && Plain(author) && Plain(date)
    ensures WellFormed(Footer(w, author, date))
  {
    var p := Pitfalls(w);
    var q := AntiPatterns(w);
    var r := Closing(w, author, date);
    var signed := w.license + Signature(w.lang, author, date);
    SignatureProse(w.lang, author, date);
    AllProseAppend(w.license, Signature(w.lang, author, date));
    FooterTitlesOk();
    assert WellFormed(p) by {
      SectionOk("Common Pitfalls", w.pitfallProblem);
      ExampleOk(false, w.pitfallWrong, w.pitfallSolution);
      ExampleOk(true, w.pitfallRight, w.pitfallMore);
      WellFormedAppend(Section("Common Pitfalls", w.pitfallProblem),
                       Example(false, w.pitfallWrong, w.pitfallSolution));
      WellFormedAppend(Section("Common Pitfalls", w.pitfallProblem)
                       + Example(false, w.pitfallWrong, w.pitfallSolution),
                       Example(true, w.pitfallRight, w.pitfallMore));
    }
    assert WellFormed(q) by {
      SectionOk("Anti-Patterns", w.antiPatternWhat);
      ExampleOk(false, w.antiPatternWrong, w.antiPatternWhy);
      ExampleOk(true, w.antiPatternRight, w.antiPatternBetter);
      WellFormedAppend(Section("Anti-Patterns", w.antiPatternWhat),
                       Example(false, w.antiPatternWrong, w.antiPatternWhy));
      WellFormedAppend(Section("Anti-Patterns", w.antiPatternWhat)
                       + Example(false, w.antiPatternWrong, w.antiPatternWhy),
                       Example(true, w.antiPatternRight, w.antiPatternBetter));
    }
    assert WellFormed(r) by {
      SectionOk(FurtherReadingTitle, w.furtherReading);
      SectionOk("Changelog", w.changelog);
      SectionOk("License", signed);
      WellFormedAppend(Section(FurtherReadingTitle, w.furtherReading), Section("Changelog", w.changelog));
      WellFormedAppend(Section(FurtherReadingTitle, w.furtherReading) + Section("Changelog", w.changelog),
                       Section("License", signed));
    }
    WellFormedAppend(p, q);
    WellFormedAppend(p + q, r);
  }

  /** Every line of a generated document is what its piece says it is, whatever the
      author and date texts, as long as the inputs are plain. */
  lemma {:induction false} DocumentWellFormed(lang: Language, name: string, description: string, tags: seq<string>,
                           n: nat, author: string, date: string)
    requires PlainInputs(name, description, tags) && Plain(author) && Plain(date)
    ensures WellFormed(Document(Words(lang), name, description, tags, n, author, date))
  {
    var w := Words(lang);
    WordsOk(lang);
    HeadWellFormed(w, name, description, tags);
    PatternsWellFormed(w, n, n);
    FooterWellFormed(w, author, date);
    WellFormedAppend(Head(w, name, description, tags), Patterns(w, n, n));
    WellFormedAppend(Head(w, name, description, tags) + Patterns(w, n, n), Footer(w, author, date));
  }

  // ---------------------------------------------------------------------------
  // The third scenario row points to the next pattern
  // ---------------------------------------------------------------------------

  /** The "See Pattern" references of a document of `n` patterns stay within 1 to `n`, no
      two sections point to the same pattern, and the last one points back to the first:
      the references form a single cycle through all sections. */
  lemma {:induction false} SeeAlsoCycle(n: nat)
    requires n >= 1
    ensures forall i | 1 <= i <= n :: 1 <= SeeAlso(i, n) <= n
    ensures forall i, j | 1 <= i <= n && 1 <= j <= n && SeeAlso(i, n) == SeeAlso(j, n) :: i == j
    ensures SeeAlso(n, n) == 1
    ensures n >= 2 ==> forall i | 1 <= i <= n :: SeeAlso(i, n) != i
  {
  }

  // ---------------------------------------------------------------------------
  // The signature
  // ---------------------------------------------------------------------------

  /** The label of the last line of the signature. */
  function DateLabel(lang: Language): string {
    if lang == English then "**Last Updated**: " else "**最終更新**: "
  }

  lemma {:induction false} SignatureLines(lang: Language, author: string, date: string)
    ensures |Signature(lang, author, date)| == 3
    ensures Signature(lang, author, date)[1] == "**Author**: " + author
    ensures Signature(lang, author, date)[2] == DateLabel(lang) + date
  {
  }

  lemma {:induction false} SectionLines(title: string, lines: seq<string>)
    ensures DocLines(Section(title, lines)) == ["## " + title] + lines
  {
    var doc := Section(title, lines);
    assert doc[0] == Heading(title) && doc[1..] == [Prose(lines)];
    assert [Prose(lines)][0] == Prose(lines) && [Prose(lines)][1..] == [];
    assert DocLines([Prose(lines)]) == lines + DocLines([]);
    assert lines + [] == lines;
  }

  /** `x` ends with `suffix` when it is the last part of `x`. */
  predicate LinesEnd(x: seq<string>, suffix: seq<string>) {
    |x| >= |suffix| && x[|x| - |suffix|..] == suffix
  }

  lemma {:induction false} EndsAppend(x: seq<string>, y: seq<string>, suffix: seq<string>)
    requires LinesEnd(y, suffix)
    ensures LinesEnd(x + y, suffix)
  {
    assert (x + y)[|x + y| - |suffix|..] == y[|y| - |suffix|..];
  }

  lemma {:induction false} ClosingEndsWithSignature(w: Wording, author: string, date: string)
    ensures LinesEnd(DocLines(Closing(w, author, date)), Signature(w.lang, author, date))
  {
    var signed := w.license + Signature(w.lang, author, date);
    var first := Section(FurtherReadingTitle, w.furtherReading) + Section("Changelog", w.changelog);
    assert Closing(w, author, date) == first + Section("License", signed);
    DocLinesAppend(first, Section("License", signed));
    SectionLines("License", signed);
    SignatureLines(w.lang, author, date);
    EndsAppend(w.license, Signature(w.lang, author, date), Signature(w.lang, author, date));
    EndsAppend(["## " + "License"], signed, Signature(w.lang, author, date));
    EndsAppend(DocLines(first), ["## " + "License"] + signed, Signature(w.lang, author, date));
  }

  /** A document ends with its three signature lines. */
  lemma {:induction false} DocumentEndsWithSignature(w: Wording, name: string, description: string,
                                  tags: seq<string>, n: nat, author: string, date: string)
    ensures LinesEnd(DocLines(Document(w, name, description, tags, n, author, date)),
                     Signature(w.lang, author, date))
  {
    var body := Head(w, name, description, tags) + Patterns(w, n, n) + Pitfalls(w) + AntiPatterns(w);
    assert Document(w, name, description, tags, n, author, date) == body + Closing(w, author, date);
    DocLinesAppend(body, Closing(w, author, date));
    ClosingEndsWithSignature(w, author, date);
    EndsAppend(DocLines(body), DocLines(Closing(w, author, date)), Signature(w.lang, author, date));
  }

  /** With placeholder texts in the footer, the signature of a document is not the one
      the generator means to write: its author line is not `**Author**: RyoMurakami1983`
      and its last line does not end in the date. */
  lemma {:induction false} PlaceholderSignature(w: Wording, name: string, description: string,
                             tags: seq<string>, n: nat, today: string)
    requires |today| > 0 && IsAsciiDigit(today[0])
    ensures var d := DocLines(Document(w, name, description, tags, n, AuthorPlaceholder, DatePlaceholder));
            && |d| >= 2
            && d[|d| - 2] == "**Author**: " + AuthorPlaceholder
            && d[|d| - 1] == DateLabel(w.lang) + DatePlaceholder
            && d[|d| - 2] != "**Author**: " + Author
            && d[|d| - 1] != DateLabel(w.lang) + today
  {
    DocumentEndsWithSignature(w, name, description, tags, n, AuthorPlaceholder, DatePlaceholder);
    SignatureLines(w.lang, AuthorPlaceholder, DatePlaceholder);
    var d := DocLines(Document(w, name, description, tags, n, AuthorPlaceholder, DatePlaceholder));
    assert d[|d| - 2] == d[|d| - 3..][1] && d[|d| - 1] == d[|d| - 3..][2];
    var key := DateLabel(w.lang);
    assert (key + DatePlaceholder)[|key|] == '{' && (key + today)[|key|] == today[0];
    assert ("**Author**: " + AuthorPlaceholder)[12] == '{' && ("**Author**: " + Author)[12] == 'R';
  }

  /** With the author and the date in the footer, the signature names both. */
  lemma {:induction false} DatedSignature(w: Wording, name: string, description: string,
                       tags: seq<string>, n: nat, today: string)
    ensures var d := DocLines(Document(w, name, description, tags, n, Author, today));
            && |d| >= 2
            && d[|d| - 2] == "**Author**: " + Author
            && d[|d| - 1] == DateLabel(w.lang) + today
  {
    DocumentEndsWithSignature(w, name, description, tags, n, Author, today);
    SignatureLines(w.lang, Author, today);
    var d := DocLines(Document(w, name, description, tags, n, Author, today));
    assert d[|d| - 2] == d[|d| - 3..][1] && d[|d| - 1] == d[|d| - 3..][2];
  }

  /** As written, the signature of either document carries the placeholder texts. */
  lemma {:induction false} AsWrittenSignature(lang: Language, name: string, description: string,
                           tags: seq<string>, n: nat, today: string)
    requires |today| > 0 && IsAsciiDigit(today[0])
    ensures var d := DocLines(AsWritten(lang, name, description, tags, n));
            && |d| >= 2
            && d[|d| - 2] != "**Author**: " + Author
            && d[|d| - 1] != DateLabel(lang) + today
  {
    PlaceholderSignature(Words(lang), name, description, tags, n, today);
  }

  /** As intended, the signature names the author and the generation date. */
  lemma {:induction false} IntendedSignature(lang: Language, name: string, description: string,
                          tags: seq<string>, n: nat, today: string)
    ensures var d := DocLines(Intended(lang, name, description, tags, n, today));
            && |d| >= 2
            && d[|d| - 2] == "**Author**: " + Author
            && d[|d| - 1] == DateLabel(lang) + today
  {
    DatedSignature(Words(lang), name, description, tags, n, today);
  }
}
