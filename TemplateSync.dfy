/**
 * What skills/skill-revision-guide/scripts/check_sync.py reads from the SKILL.md texts that
 * skills/skill-template-generator/scripts/generate_template.py writes: the same H2 titles,
 * table count and ✅/❌ counts the document was built from, and the frontmatter fields
 * the generator was given. On a freshly generated English/Japanese pair the sync check
 * raises no issue beyond a pattern-count difference and warns once per pattern title.
 */
module TemplateSync {
  import opened Text
  import opened Validator
  import opened CheckPatterns
  import opened SyncDocument
  import opened SyncChecker
  import opened TemplateText
  import opened Template

  // ---------------------------------------------------------------------------
  // Counting characters
  // ---------------------------------------------------------------------------

  lemma {:induction false} CountCharAppend(a: string, b: string, c: char)
    ensures CountChar(a + b, c) == CountChar(a, c) + CountChar(b, c)
  {
    if |a| == 0 {
      assert a + b == b;
    } else {
      assert (a + b)[0] == a[0] && (a + b)[1..] == a[1..] + b;
      CountCharAppend(a[1..], b, c);
    }
  }

  lemma {:induction false} CountCharAbsent(s: string, c: char)
    requires forall k | 0 <= k < |s| :: s[k] != c
    ensures CountChar(s, c) == 0
  {
    if |s| > 0 {
      assert forall k | 0 <= k < |s| - 1 :: s[1..][k] == s[k + 1];
      CountCharAbsent(s[1..], c);
    }
  }

  predicate IsMark(c: char) { c == GoodMark || c == BadMark }

  lemma {:induction false} PlainCount(t: string, c: char)
    requires Plain(t) && IsMark(c)
    ensures CountChar(t, c) == 0
  {
    CountCharAbsent(t, c);
  }

  /** Lines free of marks give a text free of marks. */
  lemma {:induction false} PlainLinesCount(lines: seq<string>, c: char)
    requires forall k | 0 <= k < |lines| :: Plain(lines[k])
    requires IsMark(c)
    ensures CountChar(Unlines(lines), c) == 0
  {
    if |lines| > 0 {
      PlainLinesCount(lines[1..], c);
      CountCharAppend(lines[0] + "\n", Unlines(lines[1..]), c);
      CountCharAppend(lines[0], "\n", c);
      PlainCount(lines[0], c);
    }
  }

  // ---------------------------------------------------------------------------
  // Lines as the readers see them
  // ---------------------------------------------------------------------------

  /** A line that starts with neither whitespace nor `|` is no table line. */
  lemma {:induction false} StripKeepsFirst(t: string)
    requires |t| > 0 && !IsSpace(t[0])
    ensures IsTableLine(t) <==> t[0] == '|'
  {
    assert LeadingSpace(t) == 0;
    assert LStrip(t) == t;
    var n := TrailingSpace(t);
    assert n < |t|;
    assert Strip(t) == t[..|t| - n];
  }

  lemma {:induction false} ProseLine(t: string)
    requires ProseOk(t)
    ensures !IsTitledH2(t) && !IsTableLine(t) && NoNewline(t)
  {
    assert NoNewline(t) by { PlainLine(t); }
    if |t| > 0 {
      assert !IsTableLine(t) by { StripKeepsFirst(t); }
    } else {
      assert Strip(t) == [];
    }
  }

  lemma {:induction false} RowLine(t: string)
    requires RowOk(t)
    ensures !IsTitledH2(t) && IsTableLine(t) && NoNewline(t)
  {
    assert IsTableLine(t) by { StripKeepsFirst(t); }
    assert !IsTitledH2(t) by {
      if |t| > 2 { assert t[..2][0] == t[0]; }
    }
    assert NoNewline(t) by { PlainLine(t); }
  }

  lemma {:induction false} PlainLine(t: string)
    requires Plain(t)
    ensures NoNewline(t)
  {
    forall k | 0 <= k < |t| ensures t[k] != '\n' { }
  }

  lemma BlankLine()
    ensures !IsTitledH2("") && !IsTableLine("") && NoNewline("")
  {
    assert Strip("") == [];
  }

  /** A line whose first character is neither whitespace, `#` nor `|` is neither a
      heading nor a table line. */
  lemma {:induction false} NeitherLine(line: string)
    requires |line| > 0 && !IsSpace(line[0]) && line[0] != '#' && line[0] != '|'
    ensures !IsTitledH2(line) && !IsTableLine(line)
  {
    StripKeepsFirst(line);
    if |line| > 2 {
      assert line[..2][0] == line[0];
    }
  }

  /** `## title` is read as the H2 title `title`. */
  lemma {:induction false} HeadingTitle(title: string)
    requires TitleOk(title)
    ensures IsTitledH2("## " + title) && Strip(H2Title("## " + title)) == title
  {
    var line := "## " + title;
    assert line[..2] == "##" && line[2] == ' ';
    assert line[2..] == " " + title;
    assert LeadingSpace(" " + title) == 1 + LeadingSpace(title);
    assert AfterH2Marker(line) == title;
    StripPlain(title, "");
    assert "" + title == title;
  }

  lemma {:induction false} HeadingLine(title: string)
    requires TitleOk(title)
    ensures var line := "## " + title;
            IsTitledH2(line) && Strip(H2Title(line)) == title && !IsTableLine(line) && NoNewline(line)
  {
    HeadingTitle(title);
    var line := "## " + title;
    assert line[0] == '#';
    StripKeepsFirst(line);
    HashesPlain();
    PlainCat("## ", title);
  }

  lemma HashesPlain()
    ensures Plain("## ")
  {
  }

  /** A line made of a plain start, one mark and a plain rest holds that mark once and
      the other mark nowhere. */
  lemma {:induction false} OneMark(start: string, mark: char, rest: string)
    requires Plain(start) && Plain(rest) && IsMark(mark)
    ensures NoNewline(start + [mark] + rest)
    ensures forall c | IsMark(c) :: CountChar(start + [mark] + rest, c) == (if c == mark then 1 else 0)
  {
    var line := start + [mark] + rest;
    forall k | 0 <= k < |line| ensures line[k] != '\n' {
      if k < |start| {
        assert line[k] == start[k];
      } else if k > |start| {
        assert line[k] == rest[k - |start| - 1];
      }
    }
    forall c | IsMark(c)
      ensures CountChar(line, c) == (if c == mark then 1 else 0)
    {
      CountCharAppend(start + [mark], rest, c);
      CountCharAppend(start, [mark], c);
      PlainCount(start, c);
      PlainCount(rest, c);
    }
  }

  lemma WordsPlain()
    ensures Plain(" CORRECT - ") && Plain(" WRONG - ") && Plain("// ")
  {
  }

  /** The first line of a code example: `// ✅ CORRECT - note` or `// ❌ WRONG - note`. */
  lemma {:induction false} MarkerLine(correct: bool, note: string)
    requires Plain(note)
    ensures var line := PieceLines(Marker(correct, note))[0];
            && !IsTitledH2(line) && !IsTableLine(line) && NoNewline(line)
            && CountChar(line, GoodMark) == (if correct then 1 else 0)
            && CountChar(line, BadMark) == (if correct then 0 else 1)
  {
    WordsPlain();
    if correct {
      MarkLine(GoodMark, " CORRECT - ", note);
    } else {
      MarkLine(BadMark, " WRONG - ", note);
    }
  }

  /** `// `, one mark, a plain word and a plain note make a line that is neither a heading
      nor a table line and holds that mark once and no other. */
  lemma {:induction false} MarkLine(mark: char, word: string, note: string)
    requires IsMark(mark) && Plain(word) && Plain(note) && Plain("// ")
    ensures var line := "// " + [mark] + word + note;
            && !IsTitledH2(line) && !IsTableLine(line) && NoNewline(line)
            && CountChar(line, GoodMark) == (if mark == GoodMark then 1 else 0)
            && CountChar(line, BadMark) == (if mark == BadMark then 1 else 0)
  {
    var line := "// " + [mark] + (word + note);
    assert "// " + [mark] + word + note == line;
    assert !IsTitledH2(line) && !IsTableLine(line) by {
      assert line[0] == '/';
      NeitherLine(line);
    }
    PlainCat(word, note);
    OneMark("// ", mark, word + note);
  }

  // ---------------------------------------------------------------------------
  // Pieces and documents
  // ---------------------------------------------------------------------------

  lemma {:induction false} H2TitlesNone(lines: seq<string>)
    requires forall k | 0 <= k < |lines| :: !IsTitledH2(lines[k])
    ensures H2Titles(lines) == []
  {
    if |lines| > 0 {
      H2TitlesNone(lines[1..]);
    }
  }

  lemma {:induction false} RunStartsNone(lines: seq<string>, p: string -> bool)
    requires forall k | 0 <= k < |lines| :: !p(lines[k])
    ensures RunStarts(lines, p) == 0
  {
    if |lines| > 0 {
      RunStartsNone(lines[..|lines| - 1], p);
    }
  }

  /** Consecutive lines that all satisfy `p` make one run. */
  lemma {:induction false} RunStartsOne(lines: seq<string>, p: string -> bool)
    requires |lines| > 0
    requires forall k | 0 <= k < |lines| :: p(lines[k])
    ensures RunStarts(lines, p) == 1
  {
    if |lines| > 1 {
      RunStartsOne(lines[..|lines| - 1], p);
    } else {
      assert lines[..0] == [];
    }
  }

  /** One more line that is outside `p` opens no run. */
  lemma {:induction false} RunStartsSnoc(lines: seq<string>, line: string, p: string -> bool)
    requires !p(line)
    ensures RunStarts(lines + [line], p) == RunStarts(lines, p)
  {
    assert (lines + [line])[..|lines|] == lines;
  }

  /** The readers of check_sync.py find in `lines` exactly the tally `t`: its H2 titles,
      as many table runs as `t.tables`, and its ✅ and ❌ counts; the last line ends any
      table, so what follows is counted on its own. */
  predicate ReadsAs(lines: seq<string>, t: Tally) {
    && NoNewlines(lines)
    && H2Titles(lines) == t.titles
    && RunStarts(lines, IsTableLine) == t.tables
    && LastOutside(lines, IsTableLine)
    && CountChar(Unlines(lines), GoodMark) == t.good
    && CountChar(Unlines(lines), BadMark) == t.bad
  }

  lemma {:induction false} ProseReadBack(ls: seq<string>)
    requires AllProse(ls)
    ensures ReadsAs(ls, Tally([], 0, 0, 0))
  {
    forall k | 0 <= k < |ls| ensures !IsTitledH2(ls[k]) && !IsTableLine(ls[k]) && NoNewline(ls[k]) {
      ProseLine(ls[k]);
    }
    H2TitlesNone(ls);
    RunStartsNone(ls, IsTableLine);
    PlainLinesCount(ls, GoodMark);
    PlainLinesCount(ls, BadMark);
  }

  lemma {:induction false} HeadingReadBack(title: string)
    requires TitleOk(title)
    ensures ReadsAs(["## " + title], Tally([title], 0, 0, 0))
  {
    var line := "## " + title;
    HeadingLine(title);
    assert Plain(line) by {
      HashesPlain();
      PlainCat("## ", title);
    }
    PlainCount(line, GoodMark);
    PlainCount(line, BadMark);
    LineReadBack(line, [title], 0, 0);
  }

  /** A single line that is not a table row reads as its own title, if any, and marks. */
  lemma {:induction false} LineReadBack(line: string, titles: seq<string>, good: nat, bad: nat)
    requires NoNewline(line) && !IsTableLine(line)
    requires titles == (if IsTitledH2(line) then [Strip(H2Title(line))] else [])
    requires CountChar(line, GoodMark) == good && CountChar(line, BadMark) == bad
    ensures ReadsAs([line], Tally(titles, 0, good, bad))
  {
    var lines := [line];
    assert NoNewlines(lines);
    assert H2Titles(lines) == titles by {
      assert lines[1..] == [];
      assert titles + [] == titles;
    }
    assert RunStarts(lines, IsTableLine) == 0 by {
      RunStartsNone(lines, IsTableLine);
    }
    assert CountChar(Unlines(lines), GoodMark) == good by {
      LineMarks(line, GoodMark);
    }
    assert CountChar(Unlines(lines), BadMark) == bad by {
      LineMarks(line, BadMark);
    }
  }

  lemma {:induction false} LineMarks(line: string, c: char)
    requires IsMark(c)
    ensures CountChar(Unlines([line]), c) == CountChar(line, c)
  {
    assert Unlines([line]) == line + "\n" by {
      assert [line][1..] == [];
    }
    CountCharAbsent("\n", c);
    CountCharAppend(line, "\n", c);
  }

  lemma {:induction false} TableLines(rows: seq<string>)
    requires AllRows(rows)
    ensures forall k | 0 <= k < |rows| :: IsTableLine(rows[k])
    ensures var lines := [""] + rows + [""];
            forall k | 0 <= k < |lines| :: !IsTitledH2(lines[k]) && NoNewline(lines[k]) && Plain(lines[k])
  {
    var lines := [""] + rows + [""];
    forall k | 0 <= k < |rows| ensures IsTableLine(rows[k]) {
      RowLine(rows[k]);
    }
    forall k | 0 <= k < |lines| ensures !IsTitledH2(lines[k]) && NoNewline(lines[k]) && Plain(lines[k]) {
      if 1 <= k <= |rows| {
        assert lines[k] == rows[k - 1];
        RowLine(rows[k - 1]);
      } else {
        assert lines[k] == "";
        BlankLine();
      }
    }
  }

  /** A run framed by two lines outside `p` is one run. */
  lemma {:induction false} FramedRun(rows: seq<string>, blank: string, p: string -> bool)
    requires |rows| > 0 && forall k | 0 <= k < |rows| :: p(rows[k])
    requires !p(blank)
    ensures RunStarts([blank] + rows + [blank], p) == 1
  {
    RunStartsOne(rows, p);
    RunStartsSnoc(rows, blank, p);
    assert [blank] + rows + [blank] == [blank] + (rows + [blank]);
    RunStartsAppend([blank], rows + [blank], p);
    RunStartsNone([blank], p);
  }

  lemma {:induction false} TableRuns(rows: seq<string>)
    requires |rows| > 0 && forall k | 0 <= k < |rows| :: IsTableLine(rows[k])
    ensures RunStarts([""] + rows + [""], IsTableLine) == 1
  {
    BlankLine();
    FramedRun(rows, "", IsTableLine);
  }

  lemma {:induction false} TableReadBack(rows: seq<string>)
    requires |rows| > 0 && AllRows(rows)
    ensures ReadsAs([""] + rows + [""], Tally([], 1, 0, 0))
  {
    var lines := [""] + rows + [""];
    TableLines(rows);
    BlankLine();
    TableRuns(rows);
    H2TitlesNone(lines);
    PlainLinesCount(lines, GoodMark);
    PlainLinesCount(lines, BadMark);
  }

  lemma {:induction false} MarkerReadBack(correct: bool, note: string)
    requires Plain(note)
    ensures ReadsAs(PieceLines(Marker(correct, note)), PieceTally(Marker(correct, note)))
  {
    var lines := PieceLines(Marker(correct, note));
    MarkerLine(correct, note);
    assert lines == [lines[0]];
    LineReadBack(lines[0], [], if correct then 1 else 0, if correct then 0 else 1);
  }

  /** What the readers find in the lines of one piece: its tally. */
  lemma {:induction false} PieceReadBack(p: Piece)
    requires PieceOk(p)
    ensures ReadsAs(PieceLines(p), PieceTally(p))
  {
    match p
    case Prose(ls) => ProseReadBack(ls);
    case Heading(title) => HeadingReadBack(title);
    case Table(rows) => TableReadBack(rows);
    case Marker(correct, note) => MarkerReadBack(correct, note);
  }

  /** Readings add up: what follows a piece is counted on its own. */
  lemma {:induction false} ReadsAsAppend(a: seq<string>, ta: Tally, b: seq<string>, tb: Tally)
    requires ReadsAs(a, ta) && ReadsAs(b, tb)
    ensures ReadsAs(a + b, Plus(ta, tb))
  {
    var ab := a + b;
    assert NoNewlines(ab) by { NoNewlinesAppend(a, b); }
    assert H2Titles(ab) == ta.titles + tb.titles by { H2TitlesAppend(a, b); }
    assert RunStarts(ab, IsTableLine) == ta.tables + tb.tables by { RunStartsAppend(a, b, IsTableLine); }
    assert LastOutside(ab, IsTableLine) by { LastLineAppend(a, b, IsTableLine); }
    assert CountChar(Unlines(ab), GoodMark) == ta.good + tb.good by { MarksAppend(a, b, GoodMark); }
    assert CountChar(Unlines(ab), BadMark) == ta.bad + tb.bad by { MarksAppend(a, b, BadMark); }
  }

  lemma {:induction false} NoNewlinesAppend(a: seq<string>, b: seq<string>)
    requires NoNewlines(a) && NoNewlines(b)
    ensures NoNewlines(a + b)
  {
    var ab := a + b;
    forall k | 0 <= k < |ab| ensures NoNewline(ab[k]) {
      if k < |a| { assert ab[k] == a[k]; } else { assert ab[k] == b[k - |a|]; }
    }
  }

  /** The last line, if any, is not one `p` holds of. */
  predicate LastOutside(lines: seq<string>, p: string -> bool) {
    |lines| == 0 || !p(lines[|lines| - 1])
  }

  lemma {:induction false} LastLineAppend(a: seq<string>, b: seq<string>, p: string -> bool)
    requires LastOutside(a, p) && LastOutside(b, p)
    ensures LastOutside(a + b, p)
  {
    if |b| > 0 {
      assert (a + b)[|a + b| - 1] == b[|b| - 1];
    } else {
      assert a + b == a;
    }
  }

  lemma {:induction false} MarksAppend(a: seq<string>, b: seq<string>, c: char)
    ensures CountChar(Unlines(a + b), c) == CountChar(Unlines(a), c) + CountChar(Unlines(b), c)
  {
    UnlinesAppend(a, b);
    CountCharAppend(Unlines(a), Unlines(b), c);
  }

  /** The lines of a well-formed document read back as its tally. */
  lemma {:induction false} DocReadBack(doc: seq<Piece>)
    requires WellFormed(doc)
    ensures ReadsAs(DocLines(doc), Measure(doc))
  {
    if |doc| == 0 {
      assert RunStarts([], IsTableLine) == 0;
    } else {
      assert PieceOk(doc[0]);
      assert WellFormed(doc[1..]) by {
        assert forall k | 0 <= k < |doc| - 1 :: doc[1..][k] == doc[k + 1];
      }
      PieceReadBack(doc[0]);
      DocReadBack(doc[1..]);
      ReadsAsAppend(PieceLines(doc[0]), PieceTally(doc[0]), DocLines(doc[1..]), Measure(doc[1..]));
    }
  }

  /** The rendered text of a well-formed document, split into lines as `SkillDocument`
      does, has the document's H2 titles, tables and ✅/❌ counts. */
  lemma {:induction false} TextReadBack(doc: seq<Piece>)
    requires WellFormed(doc)
    ensures H2Titles(Lines(Render(doc))) == Measure(doc).titles
    ensures |TableGroups(Lines(Render(doc)))| == Measure(doc).tables
    ensures CountChar(Render(doc), GoodMark) == Measure(doc).good
    ensures CountChar(Render(doc), BadMark) == Measure(doc).bad
  {
    DocReadBack(doc);
    LinesReadBack(DocLines(doc), Measure(doc));
  }

  /** Lines that read as a tally, written out and split again, read as that tally. */
  lemma {:induction false} LinesReadBack(lines: seq<string>, t: Tally)
    requires ReadsAs(lines, t)
    ensures H2Titles(Lines(Unlines(lines))) == t.titles
    ensures |TableGroups(Lines(Unlines(lines)))| == t.tables
  {
    assert Lines(Unlines(lines)) == lines + [""] by { LinesOfUnlines(lines); }
    BlankLine();
    assert H2Titles(lines + [""]) == t.titles by {
      H2TitlesAppend(lines, [""]);
      H2TitlesNone([""]);
      assert t.titles + [] == t.titles;
    }
    assert |TableGroups(lines + [""])| == t.tables by {
      RunCountIsStartCount(lines + [""], IsTableLine);
      RunStartsSnoc(lines, "", IsTableLine);
    }
  }

  // ---------------------------------------------------------------------------
  // The frontmatter block
  // ---------------------------------------------------------------------------

  /** Frontmatter lines as the generator writes them: non-empty, on one line, and not
      starting with a dash, so no `---` line is hidden among them. */
  predicate YamlLines(parts: seq<string>) {
    forall k | 0 <= k < |parts| :: |parts[k]| > 0 && parts[k][0] != '-' && NoNewline(parts[k])
  }

  lemma {:induction false} JoinStart(parts: seq<string>)
    requires |parts| > 0 && |parts[0]| > 0
    ensures |Join(parts, "\n")| > 0 && Join(parts, "\n")[0] == parts[0][0]
  {
  }

  /** Lines joined by newlines that satisfy `YamlLines` hold no newline followed by `---`. */
  lemma {:induction false} JoinNoClosing(parts: seq<string>)
    requires YamlLines(parts)
    ensures !Contains(Join(parts, "\n"), "\n---")
  {
    if |parts| >= 2 {
      var p0 := parts[0];
      var rest := Join(parts[1..], "\n");
      var s := Join(parts, "\n");
      assert s == p0 + "\n" + rest;
      assert YamlLines(parts[1..]) by {
        assert forall k | 0 <= k < |parts| - 1 :: parts[1..][k] == parts[k + 1];
      }
      JoinNoClosing(parts[1..]);
      JoinStart(parts[1..]);
      forall i | 0 <= i <= |s| - 4 ensures !OccursAt(s, "\n---", i) {
        assert s[i..i + 4][0] == s[i] && s[i..i + 4][1] == s[i + 1];
        if i < |p0| {
          assert s[i] == p0[i];
          assert s[i] != '\n';
        } else if i == |p0| {
          assert s[i + 1] == parts[1][0];
        } else {
          assert s[i..i + 4] == rest[i - |p0| - 1..i - |p0| + 3];
          assert !OccursAt(rest, "\n---", i - |p0| - 1);
        }
      }
    } else if |parts| == 1 {
      forall i | 0 <= i <= |parts[0]| - 4 ensures !OccursAt(parts[0], "\n---", i) {
        assert parts[0][i..i + 4][0] == parts[0][i];
      }
    }
  }

  lemma {:induction false} UnlinesJoin(parts: seq<string>)
    requires |parts| > 0
    ensures Unlines(parts) == Join(parts, "\n") + "\n"
  {
    if |parts| > 1 {
      UnlinesJoin(parts[1..]);
    }
  }

  /** A document that opens with `---`, its field lines and `---` renders as the block
      `check_sync.py` looks for, followed by the rest of the lines. */
  lemma {:induction false} FrontmatterText(fields: seq<string>, rest: seq<string>)
    requires |fields| > 0
    ensures Unlines(["---"] + fields + ["---"] + rest)
            == "---\n" + Join(fields, "\n") + "\n---\n" + Unlines(rest)
  {
    var j := Join(fields, "\n");
    var u := Unlines(rest);
    calc {
      Unlines(["---"] + fields + ["---"] + rest);
    == { assert ["---"] + fields + ["---"] + rest == ["---"] + (fields + (["---"] + rest));
         UnlinesAppend(["---"], fields + (["---"] + rest));
         UnlinesAppend(fields, ["---"] + rest); }
      Unlines(["---"]) + (Unlines(fields) + Unlines(["---"] + rest));
    == { UnlinesJoin(fields); }
      "---\n" + ((j + "\n") + ("---\n" + u));
    == { assert (j + "\n") + ("---\n" + u) == j + ("\n---\n" + u); }
      "---\n" + j + "\n---\n" + u;
    }
  }

  /** What `.strip()` leaves of a non-empty answer: no whitespace at either end. */
  predicate Stripped(s: string) {
    |s| > 0 && !IsSpace(s[0]) && !IsSpace(s[|s| - 1])
  }

  /** `key: value` is read back as `value` under `key`. */
  lemma {:induction false} FieldLineReadBack(key: string, value: string)
    requires Stripped(value)
    ensures IsFieldLine(FieldLine(key, value), key)
    ensures FieldText(FieldLine(key, value), key) == value
  {
    var line := FieldLine(key, value);
    assert line[..|key| + 1] == key + ":";
    assert line[|key| + 1..] == " " + value;
    StripPlain(value, " ");
  }

  /** A line whose first character differs from the key's is no line of that key. */
  lemma {:induction false} OtherKey(line: string, key: string)
    requires |line| > 0 && |key| > 0 && line[0] != key[0]
    ensures !IsFieldLine(line, key)
    ensures key == "tags" ==> TagsGroup(line) == None
  {
    if StartsWith(line, "tags:") {
      assert line[..5][0] == line[0];
    }
  }

  /** The first closing bracket of `j]` is the last character when `j` has none. */
  lemma {:induction false} BracketFound(j: string)
    requires ']' !in j
    ensures Find(j + "]", "]") == Some(|j|)
  {
    var t := j + "]";
    assert OccursAt(t, "]", |j|);
    var f := Find(t, "]");
    assert f.Some?;
    var v := f.value;
    assert t[v..v + 1][0] == t[v] == ']';
  }

  lemma {:induction false} TagsAfterKey(j: string)
    ensures var line := "tags: [" + j + "]";
            StartsWith(line, "tags:") && LStrip(line[5..]) == "[" + j + "]"
  {
    var line := "tags: [" + j + "]";
    assert line[..5] == "tags:";
    assert line[5..] == " [" + j + "]";
    assert LeadingSpace(" [" + j + "]") == 1;
  }

  lemma {:induction false} TagsGroupOf(j: string)
    requires ']' !in j
    ensures TagsGroup("tags: [" + j + "]") == Some(j)
  {
    var line := "tags: [" + j + "]";
    TagsAfterKey(j);
    BracketFound(j);
    var a := "[" + j + "]";
    assert a[1..] == j + "]";
    assert a[1..1 + |j|] == j;
  }

  /** `tags: [a, b]` is read back as the text between the brackets. */
  lemma {:induction false} TagsLineReadBack(tags: seq<string>)
    requires forall k | 0 <= k < |tags| :: ']' !in tags[k]
    ensures TagsGroup(TagsLine(tags)) == Some(Join(tags, ", "))
  {
    JoinAvoids(tags, ", ", ']');
    TagsGroupOf(Join(tags, ", "));
  }

  lemma {:induction false} FirstChars(name: string, description: string, tags: seq<string>)
    ensures var f := Fields(name, description, tags);
            && |f| == 5 && |f[0]| > 0 && |f[1]| > 0 && |f[2]| > 0 && |f[3]| > 0 && |f[4]| > 0
            && f[0][0] == 'n' && f[1][0] == 'd' && f[2][0] == 'i' && f[3][0] == 't' && f[4][0] == 'a'
  {
  }

  lemma {:induction false} KeyLetters(f: seq<string>)
    requires |f| == 5 && |f[0]| > 0 && |f[1]| > 0 && |f[2]| > 0 && |f[3]| > 0 && |f[4]| > 0
    requires f[0][0] == 'n' && f[1][0] == 'd' && f[2][0] == 'i' && f[3][0] == 't' && f[4][0] == 'a'
    ensures forall k | 0 <= k < 1 :: |f[k]| > 0 && f[k][0] != 'd'
    ensures forall k | 0 <= k < 4 :: |f[k]| > 0 && f[k][0] != 'a'
    ensures forall k | 0 <= k < 3 :: |f[k]| > 0 && f[k][0] != 't'
  {
  }

  lemma AuthorStripped()
    ensures Stripped(Author) && Plain(Author)
  {
  }

  /** A field line preceded only by lines starting with another letter is the one read. */
  lemma {:induction false} FieldAt(f: seq<string>, i: nat, key: string, value: string)
    requires i < |f| && f[i] == FieldLine(key, value) && Stripped(value) && |key| > 0
    requires forall k | 0 <= k < i :: |f[k]| > 0 && f[k][0] != key[0]
    ensures Field(f, key) == Some(value)
  {
    FieldLineReadBack(key, value);
    forall k | 0 <= k < i ensures !IsFieldLine(f[..i][k], key) {
      OtherKey(f[k], key);
    }
    FieldIsFirstMatch(f[..i], f[i], f[i + 1..], key);
    assert f[..i] + [f[i]] + f[i + 1..] == f;
  }

  /** The same for the tag line. */
  lemma {:induction false} TagsAt(f: seq<string>, i: nat, tags: seq<string>)
    requires i < |f| && f[i] == TagsLine(tags)
    requires forall k | 0 <= k < |tags| :: ']' !in tags[k]
    requires forall k | 0 <= k < i :: |f[k]| > 0 && f[k][0] != 't'
    ensures TagsField(f) == Some(Join(tags, ", "))
  {
    if i == 0 {
      TagsLineReadBack(tags);
    } else {
      OtherKey(f[0], "tags");
      TagsAt(f[1..], i - 1, tags);
    }
  }

  /** The frontmatter fields the generator writes are read back under their keys: the
      name, the description, the author and the bracketed tag text. */
  lemma {:induction false} FieldsReadBack(name: string, description: string, tags: seq<string>)
    requires Stripped(name) && Stripped(description)
    requires forall k | 0 <= k < |tags| :: ']' !in tags[k]
    ensures var f := Fields(name, description, tags);
            && Field(f, "name") == Some(name)
            && Field(f, "description") == Some(description)
            && Field(f, "author") == Some(Author)
            && TagsField(f) == Some(Join(tags, ", "))
  {
    var f := Fields(name, description, tags);
    FirstChars(name, description, tags);
    AuthorStripped();
    assert f[0] == FieldLine("name", name) && f[1] == FieldLine("description", description);
    assert f[3] == TagsLine(tags) && f[4] == FieldLine("author", Author);
    KeyLetters(f);
    FieldAt(f, 0, "name", name);
    FieldAt(f, 1, "description", description);
    FieldAt(f, 4, "author", Author);
    TagsAt(f, 3, tags);
  }

  // ---------------------------------------------------------------------------
  // A generated document, read back
  // ---------------------------------------------------------------------------

  /** The answers `collect_input` hands on, as far as the sync check needs them: each
      was typed on one line, since `input()` returns one line, and the name is plain
      (see `AcceptedNamePlain`). */
  predicate OneLineAnswers(name: string, description: string, tags: seq<string>) {
    Plain(name) && NoNewline(description) && forall k | 0 <= k < |tags| :: NoNewline(tags[k])
  }

  /** A name `validate_skill_name` accepts, once `.strip()` has removed any final newline,
      holds lowercase letters, digits and hyphens only: no line break and no ✅/❌. */
  lemma {:induction false} AcceptedNamePlain(name: string)
    requires ValidateSkillName(name) && (|name| == 0 || name[|name| - 1] != '\n')
    ensures Plain(name)
  {
    ValidNames(name);
    forall k | 0 <= k < |name| ensures name[k] != '\n' && name[k] != GoodMark && name[k] != BadMark {
      assert IsRunChar(name[k]) || name[k] == '-';
    }
  }

  /** The answers whose frontmatter `_parse_frontmatter` reads back as given: a name and
      a description that `.strip()` left non-empty, at least one tag, none holding a comma,
      a closing bracket or surrounding quotes, and each typed on one line. */
  predicate ReadableInputs(name: string, description: string, tags: seq<string>) {
    && Stripped(name) && Stripped(description)
    && |tags| > 0 && (forall k | 0 <= k < |tags| :: IsPlainTag(tags[k]))
    && OneLineAnswers(name, description, tags)
  }

  lemma {:induction false} DocumentOpens(w: Wording, name: string, description: string, tags: seq<string>,
                      n: nat, author: string, date: string)
    ensures var d := Document(w, name, description, tags, n, author, date);
            |d| > 0 && d[0] == Prose(FrontLines(name, description, tags))
  {
  }

  /** The document after its frontmatter: the blank line, the `# ` title line, the blank
      line and every other piece. */
  function Body(d: seq<Piece>, name: string): seq<Piece>
    requires |d| > 0
  {
    [Prose(["", TitleLine(name), ""])] + d[1..]
  }

  lemma {:induction false} RenderedSplit(d: seq<Piece>, name: string, description: string, tags: seq<string>)
    requires |d| > 0 && d[0] == Prose(FrontLines(name, description, tags))
    ensures Render(d) == "---\n" + Join(Fields(name, description, tags), "\n") + "\n---\n" + Render(Body(d, name))
  {
    var f := Fields(name, description, tags);
    var x := DocLines(d[1..]);
    var t := ["", TitleLine(name), ""];
    assert DocLines(d) == FrontLines(name, description, tags) + x;
    assert FrontLines(name, description, tags) + x == ["---"] + f + ["---"] + (t + x);
    FrontmatterText(f, t + x);
    assert DocLines(Body(d, name)) == PieceLines(Prose(t)) + DocLines(Body(d, name)[1..]);
    assert Body(d, name)[1..] == d[1..];
  }

  lemma {:induction false} FieldsYaml(name: string, description: string, tags: seq<string>)
    requires OneLineAnswers(name, description, tags)
    ensures YamlLines(Fields(name, description, tags))
  {
    var f := Fields(name, description, tags);
    FirstChars(name, description, tags);
    AuthorStripped();
    PlainLine(name);
    PlainLine(Author);
    JoinAvoids(tags, ", ", '\n');
    assert f[0] == "name: " + name && f[1] == "description: " + description;
    assert f[3] == "tags: [" + Join(tags, ", ") + "]" && f[4] == "author: " + Author;
    forall k | 0 <= k < |f| ensures NoNewline(f[k]) {
    }
  }

  /** `_parse_frontmatter` on a generated document finds the name, description, author and
      tags the generator wrote. */
  lemma {:induction false} FrontmatterReadBack(d: seq<Piece>, name: string, description: string, tags: seq<string>)
    requires |d| > 0 && d[0] == Prose(FrontLines(name, description, tags))
    requires ReadableInputs(name, description, tags)
    ensures FrontmatterOf(Render(d)) == Frontmatter(Some(name), Some(description), Some(Author), Some(tags))
  {
    var f := Fields(name, description, tags);
    var yaml := Join(f, "\n");
    var body := Render(Body(d, name));
    RenderedSplit(d, name, description, tags);
    FieldsYaml(name, description, tags);
    JoinNoClosing(f);
    assert Render(d) == "---\n" + yaml + "\n---" + ("\n" + body);
    FrontmatterBlockOf(yaml, "\n" + body);
    assert forall k | 0 <= k < |f| :: '\n' !in f[k];
    SplitJoin(f, '\n');
    assert Lines(yaml) == f;
    assert forall k | 0 <= k < |tags| :: ']' !in tags[k];
    FieldsReadBack(name, description, tags);
    TagListOfJoin(tags);
  }

  /** Whatever follows the frontmatter block, `_parse_frontmatter` reads only the block:
      a generated document has the frontmatter of its block alone. */
  lemma {:induction false} FrontmatterOfBlock(d: seq<Piece>, name: string, description: string, tags: seq<string>)
    requires |d| > 0 && d[0] == Prose(FrontLines(name, description, tags))
    requires OneLineAnswers(name, description, tags)
    ensures FrontmatterOf(Render(d)) == FrontmatterOf(Block(name, description, tags))
  {
    var f := Fields(name, description, tags);
    var yaml := Join(f, "\n");
    RenderedSplit(d, name, description, tags);
    FieldsYaml(name, description, tags);
    JoinNoClosing(f);
    assert Render(d) == "---\n" + yaml + "\n---" + ("\n" + Render(Body(d, name)));
    FrontmatterBlockOf(yaml, "\n" + Render(Body(d, name)));
    assert Block(name, description, tags) == "---\n" + yaml + "\n---" + "";
    FrontmatterBlockOf(yaml, "");
  }

  /** The frontmatter block the generator writes, on its own. */
  function Block(name: string, description: string, tags: seq<string>): string {
    "---\n" + Join(Fields(name, description, tags), "\n") + "\n---"
  }

  lemma {:induction false} BodyWellFormed(d: seq<Piece>, name: string)
    requires |d| > 0 && WellFormed(d[1..]) && Plain(name)
    ensures WellFormed(Body(d, name))
  {
    var b := Body(d, name);
    TitleLineProse(name);
    assert ProseOk("");
    assert PieceOk(b[0]);
    assert forall k | 1 <= k < |b| :: b[k] == d[1..][k - 1];
  }

  /** `_parse_sections` on a generated document finds the document's H2 titles. */
  lemma {:induction false} SectionsReadBack(d: seq<Piece>, name: string, description: string, tags: seq<string>)
    requires |d| > 0 && d[0] == Prose(FrontLines(name, description, tags))
    requires WellFormed(d[1..]) && OneLineAnswers(name, description, tags)
    ensures Sections(Render(d)) == Measure(d).titles
  {
    var f := Fields(name, description, tags);
    var b := Body(d, name);
    RenderedSplit(d, name, description, tags);
    FieldsYaml(name, description, tags);
    JoinNoClosing(f);
    WithoutFrontmatterOf(Join(f, "\n"), Render(b));
    BodyWellFormed(d, name);
    TextReadBack(b);
    assert b[1..] == d[1..];
  }

  /** A line the readers pass over: on one line, neither an H2 heading nor a table line. */
  predicate QuietLine(line: string) {
    NoNewline(line) && !IsTitledH2(line) && !IsTableLine(line)
  }

  lemma {:induction false} FieldsQuiet(name: string, description: string, tags: seq<string>)
    requires OneLineAnswers(name, description, tags)
    ensures var f := Fields(name, description, tags);
            forall k | 0 <= k < |f| :: QuietLine(f[k])
  {
    var f := Fields(name, description, tags);
    FieldsYaml(name, description, tags);
    FirstChars(name, description, tags);
    forall k | 0 <= k < |f| ensures QuietLine(f[k]) {
      LetterLine(f[k]);
    }
  }

  /** A line on one line that starts with a lowercase letter is passed over. */
  lemma {:induction false} LetterLine(line: string)
    requires |line| > 0 && 'a' <= line[0] <= 'z' && NoNewline(line)
    ensures QuietLine(line)
  {
    NeitherLine(line);
  }

  /** Every line of the frontmatter and title is passed over, whatever one-line answers
      went into it. */
  lemma {:induction false} FrontLinesQuiet(name: string, description: string, tags: seq<string>)
    requires OneLineAnswers(name, description, tags)
    ensures var front := FrontLines(name, description, tags);
            forall k | 0 <= k < |front| :: QuietLine(front[k])
  {
    var f := Fields(name, description, tags);
    var t := TitleLine(name);
    var front := ["---"] + f + ["---"] + ["", t, ""];
    assert FrontLines(name, description, tags) == front;
    FieldsQuiet(name, description, tags);
    NeitherLine("---");
    BlankLine();
    TitleLineProse(name);
    ProseLine(t);
    forall k | 0 <= k < |front| ensures QuietLine(front[k]) {
      if k == 0 || k == 6 {
        assert front[k] == "---";
      } else if k <= 5 {
        assert front[k] == f[k - 1];
      } else if k == 8 {
        assert front[k] == t;
      } else {
        assert front[k] == "";
      }
    }
  }

  /** Lines the readers pass over read as no title and no table, only their marks. */
  lemma {:induction false} QuietReadBack(ls: seq<string>)
    requires forall k | 0 <= k < |ls| :: QuietLine(ls[k])
    ensures ReadsAs(ls, Tally([], 0, CountChar(Unlines(ls), GoodMark), CountChar(Unlines(ls), BadMark)))
  {
    H2TitlesNone(ls);
    RunStartsNone(ls, IsTableLine);
  }

  /** A document that opens with such lines, and is well formed after them, reads as its
      tally plus the marks in those lines. */
  lemma {:induction false} FrontedReadBack(d: seq<Piece>, ls: seq<string>)
    requires |d| > 0 && d[0] == Prose(ls) && WellFormed(d[1..])
    requires forall k | 0 <= k < |ls| :: QuietLine(ls[k])
    ensures H2Titles(Lines(Render(d))) == Measure(d[1..]).titles
    ensures |TableGroups(Lines(Render(d)))| == Measure(d[1..]).tables
    ensures CountChar(Render(d), GoodMark) == CountChar(Unlines(ls), GoodMark) + Measure(d[1..]).good
    ensures CountChar(Render(d), BadMark) == CountChar(Unlines(ls), BadMark) + Measure(d[1..]).bad
  {
    var rest := d[1..];
    var t := Tally([], 0, CountChar(Unlines(ls), GoodMark), CountChar(Unlines(ls), BadMark));
    QuietReadBack(ls);
    DocReadBack(rest);
    assert DocLines(d) == ls + DocLines(rest);
    ReadsAsAppend(ls, t, DocLines(rest), Measure(rest));
    var u := Plus(t, Measure(rest));
    assert u.titles == Measure(rest).titles;
    LinesReadBack(DocLines(d), u);
  }

  /** The ✅ or ❌ marks typed into the answers: those in the description and the tags. */
  function TypedMarks(description: string, tags: seq<string>, c: char): nat {
    CountChar(description, c) + CountChar(Join(tags, ", "), c)
  }

  lemma {:induction false} FieldMarks(key: string, value: string, c: char)
    requires Plain(key + ": ") && IsMark(c)
    ensures CountChar(FieldLine(key, value), c) == CountChar(value, c)
  {
    CountCharAppend(key + ": ", value, c);
    PlainCount(key + ": ", c);
  }

  lemma {:induction false} TagsLineMarks(tags: seq<string>, c: char)
    requires IsMark(c)
    ensures CountChar(TagsLine(tags), c) == CountChar(Join(tags, ", "), c)
  {
    var j := Join(tags, ", ");
    CountCharAppend("tags: [", j, c);
    CountCharAppend("tags: [" + j, "]", c);
    PlainCount("tags: [", c);
    PlainCount("]", c);
  }

  /** The marks in the frontmatter and title lines are those typed into the answers. */
  lemma {:induction false} FrontMarks(name: string, description: string, tags: seq<string>, c: char)
    requires Plain(name) && IsMark(c)
    ensures CountChar(Unlines(FrontLines(name, description, tags)), c) == TypedMarks(description, tags, c)
  {
    var f := Fields(name, description, tags);
    var a := ["---", f[0]];
    var b := [f[2]];
    var e := [f[4], "---", "", TitleLine(name), ""];
    assert FrontLines(name, description, tags) == a + [f[1]] + b + [f[3]] + e;
    AuthorStripped();
    TitleLineProse(name);
    PlainCat("name: ", name);
    PlainCat("author: ", Author);
    assert f[0] == "name: " + name && f[4] == "author: " + Author;
    PlainLinesCount(a, c);
    PlainLinesCount(b, c);
    PlainLinesCount(e, c);
    LineMarks(f[1], c);
    LineMarks(f[3], c);
    FieldMarks("description", description, c);
    TagsLineMarks(tags, c);
    MarksAppend(a, [f[1]], c);
    MarksAppend(a + [f[1]], b, c);
    MarksAppend(a + [f[1]] + b, [f[3]], c);
    MarksAppend(a + [f[1]] + b + [f[3]], e, c);
  }

  /** check_sync.py reads a generated document, for any one-line answers, as it was built:
      the frontmatter of its frontmatter block alone, the head, pattern and footer titles
      in order, one table per pattern, and `3n + 2` ✅ and two ❌ besides any typed into
      the description or the tags. */
  lemma {:induction false} GeneratedShape(w: Wording, name: string, description: string, tags: seq<string>,
                       n: nat, author: string, date: string)
    requires WellFormed(Document(w, name, description, tags, n, author, date)[1..])
    requires OneLineAnswers(name, description, tags)
    ensures var text := Render(Document(w, name, description, tags, n, author, date));
            && FrontmatterOf(text) == FrontmatterOf(Block(name, description, tags))
            && Sections(text) == Titles(n, w.patternName)
            && |TableGroups(Lines(text))| == n
            && CountChar(text, GoodMark) == 3 * n + 2 + TypedMarks(description, tags, GoodMark)
            && CountChar(text, BadMark) == 2 + TypedMarks(description, tags, BadMark)
  {
    var d := Document(w, name, description, tags, n, author, date);
    var front := FrontLines(name, description, tags);
    DocumentOpens(w, name, description, tags, n, author, date);
    DocumentMeasure(w, name, description, tags, n, author, date);
    FrontmatterOfBlock(d, name, description, tags);
    SectionsReadBack(d, name, description, tags);
    FrontLinesQuiet(name, description, tags);
    FrontedReadBack(d, front);
    ProseFront(d, front);
    FrontMarks(name, description, tags, GoodMark);
    FrontMarks(name, description, tags, BadMark);
  }

  /** A first prose piece adds nothing to a document's tally: the generator counts no
      title, table or mark in it. */
  lemma {:induction false} ProseFront(d: seq<Piece>, ls: seq<string>)
    requires |d| > 0 && d[0] == Prose(ls)
    ensures Measure(d) == Measure(d[1..])
  {
    var m := Measure(d[1..]);
    assert [] + m.titles == m.titles;
  }

  /** What `SkillDocument` holds after parsing `text` (see `SkillDocument.ParsedFrom`),
      as `check()` compares it. */
  function TextView(text: string): DocView {
    DocView(FrontmatterOf(text), Sections(text), PatternCount(text),
            CountChar(text, GoodMark), CountChar(text, BadMark), |TableGroups(Lines(text))|)
  }

  /** check_sync.py reads a generated document as it was built: the frontmatter the
      generator was given, the head, pattern and footer titles in order, one table per
      pattern, `3n + 2` ✅ examples and two ❌ examples besides any typed into the
      description or the tags. */
  lemma {:induction false} GeneratedView(w: Wording, name: string, description: string, tags: seq<string>,
                      n: nat, author: string, date: string)
    requires WellFormed(Document(w, name, description, tags, n, author, date)[1..])
    requires ReadableInputs(name, description, tags)
    ensures var text := Render(Document(w, name, description, tags, n, author, date));
            TextView(text)
            == DocView(Frontmatter(Some(name), Some(description), Some(Author), Some(tags)),
                       Titles(n, w.patternName), PatternCount(text),
                       3 * n + 2 + TypedMarks(description, tags, GoodMark),
                       2 + TypedMarks(description, tags, BadMark), n)
  {
    var d := Document(w, name, description, tags, n, author, date);
    DocumentOpens(w, name, description, tags, n, author, date);
    FrontmatterReadBack(d, name, description, tags);
    GeneratedShape(w, name, description, tags, n, author, date);
  }

  // ---------------------------------------------------------------------------
  // The sync check on a generated pair
  // ---------------------------------------------------------------------------

  lemma {:induction false} NoDifferences(titles: seq<string>, n: nat)
    requires n <= |titles|
    ensures DifferingPositions(titles, titles, n) == 0
  {
    if n > 0 {
      NoDifferences(titles[1..], n - 1);
    }
  }

  /** The same frontmatter on both sides gives four successes. */
  lemma {:induction false} SameFrontmatterQuiet(fm: Frontmatter, strict: bool)
    ensures Only(FrontmatterFindings(fm, fm, strict), Issue) == []
    ensures Only(FrontmatterFindings(fm, fm, strict), Warning) == []
  {
    var a := FrontmatterFindings(fm, fm, strict);
    assert DescriptionClose(|fm.description.GetOr("")|, |fm.description.GetOr("")|);
    assert forall k | 0 <= k < |a| :: a[k].severity == Success;
    OnlyEmpty(a, Issue);
    OnlyEmpty(a, Warning);
  }

  /** Equal example and table counts give successes only. */
  lemma {:induction false} SameCountsQuiet(good: nat, bad: nat, tables: nat)
    ensures Only(ExampleFindings(good, good, bad, bad), Issue) == []
    ensures Only(ExampleFindings(good, good, bad, bad), Warning) == []
    ensures Only(TableFindings(tables, tables), Issue) == []
    ensures Only(TableFindings(tables, tables), Warning) == []
  {
    var d := ExampleFindings(good, good, bad, bad);
    var e := TableFindings(tables, tables);
    assert forall k | 0 <= k < |d| :: d[k].severity == Success;
    OnlyEmpty(d, Issue);
    OnlyEmpty(d, Warning);
    assert forall k | 0 <= k < |e| :: e[k].severity == Success;
    OnlyEmpty(e, Issue);
    OnlyEmpty(e, Warning);
  }

  /** Two documents that agree on everything but their titles, which are as many: no
      issue but a pattern-count difference, and one warning per differing title. */
  lemma {:induction false} SameShapeFindings(en: DocView, ja: DocView, strict: bool)
    requires en.frontmatter == ja.frontmatter && |en.sections| == |ja.sections|
    requires en.goodExamples == ja.goodExamples && en.badExamples == ja.badExamples
    requires en.tableCount == ja.tableCount
    ensures Only(AllFindings(en, ja, strict), Issue) == Only(PatternFindings(en.patternCount, ja.patternCount), Issue)
    ensures |Only(AllFindings(en, ja, strict), Warning)| == DifferingPositions(en.sections, ja.sections, |en.sections|)
  {
    var a := FrontmatterFindings(en.frontmatter, ja.frontmatter, strict);
    var b := SectionFindings(en.sections, ja.sections);
    var c := PatternFindings(en.patternCount, ja.patternCount);
    var d := ExampleFindings(en.goodExamples, ja.goodExamples, en.badExamples, ja.badExamples);
    var e := TableFindings(en.tableCount, ja.tableCount);
    SameFrontmatterQuiet(en.frontmatter, strict);
    SameCountsQuiet(en.goodExamples, en.badExamples, en.tableCount);
    assert forall k | 0 <= k < |c| :: c[k].severity != Warning;
    OnlyEmpty(c, Warning);
    if en.sections == ja.sections {
      SameSectionsOneSuccess(en.sections);
      NoDifferences(en.sections, |en.sections|);
    } else {
      DifferentSections(en.sections, ja.sections);
    }
    assert AllFindings(en, ja, strict) == a + b + c + d + e;
    OnlyAppend(a, b, Issue);
    OnlyAppend(a + b, c, Issue);
    OnlyAppend(a + b + c, d, Issue);
    OnlyAppend(a + b + c + d, e, Issue);
    OnlyAppend(a, b, Warning);
    OnlyAppend(a + b, c, Warning);
    OnlyAppend(a + b + c, d, Warning);
    OnlyAppend(a + b + c + d, e, Warning);
  }

  /** Titles that differ exactly at the positions `lo` to `hi - 1` differ `hi - lo` times. */
  lemma {:induction false} DifferingRange(en: seq<string>, ja: seq<string>, lo: nat, hi: nat, n: nat)
    requires lo <= hi <= n <= |en| && n <= |ja|
    requires forall k | 0 <= k < n :: (en[k] != ja[k] <==> lo <= k < hi)
    ensures DifferingPositions(en, ja, n) == hi - lo
    decreases n
  {
    if n > 0 {
      DifferingPositionsStep(en, ja, n);
      if hi == n {
        if lo < hi {
          DifferingRange(en, ja, lo, hi - 1, n - 1);
        } else {
          DifferingRange(en, ja, n - 1, n - 1, n - 1);
        }
      } else {
        DifferingRange(en, ja, lo, hi, n - 1);
      }
    }
  }

  lemma {:induction false} PatternTitlesDiffer(i: nat, p: string, q: string)
    requires p != q
    ensures PatternTitle(i, p) != PatternTitle(i, q)
  {
    var pre := "Pattern " + NatToString(i) + ": ";
    assert PatternTitle(i, p) == pre + p && PatternTitle(i, q) == pre + q;
    assert (pre + p)[|pre|..] == p && (pre + q)[|pre|..] == q;
  }

  /** The title lists of two languages differ exactly at the pattern titles. */
  lemma {:induction false} TitlesDiffer(n: nat, p: string, q: string)
    requires p != q
    ensures var en := Titles(n, p);
            var ja := Titles(n, q);
            forall k | 0 <= k < n + 8 :: (en[k] != ja[k] <==> 3 <= k < 3 + n)
  {
    var en := Titles(n, p);
    var ja := Titles(n, q);
    forall k | 0 <= k < n + 8 ensures en[k] != ja[k] <==> 3 <= k < 3 + n {
      if k < 3 {
        assert en[k] == HeadTitles[k] == ja[k];
      } else if k < 3 + n {
        assert en[k] == PatternTitles(n, p)[k - 3] == PatternTitle(k - 2, p);
        assert ja[k] == PatternTitles(n, q)[k - 3] == PatternTitle(k - 2, q);
        PatternTitlesDiffer(k - 2, p, q);
      } else {
        assert en[k] == FooterTitles[k - 3 - n] == ja[k];
      }
    }
  }

  lemma PatternNames()
    ensures Words(English).patternName == EnPatternName
    ensures Words(Japanese).patternName == JaPatternName
    ensures EnPatternName != JaPatternName
  {
    assert EnPatternName[1] != JaPatternName[1];
  }

  /** Whatever the answers, everything after the frontmatter piece is well formed. */
  lemma {:induction false} RestWellFormed(w: Wording, name: string, description: string, tags: seq<string>,
                       n: nat, author: string, date: string)
    requires WordingOk(w) && Plain(author) && Plain(date)
    ensures WellFormed(Document(w, name, description, tags, n, author, date)[1..])
  {
    var h := Head(w, name, description, tags);
    var p := Patterns(w, n, n);
    var f := Footer(w, author, date);
    HeadRestWellFormed(w, name, description, tags);
    PatternsWellFormed(w, n, n);
    FooterWellFormed(w, author, date);
    WellFormedAppend(h[1..], p);
    WellFormedAppend(h[1..] + p, f);
    DocumentRest(w, name, description, tags, n, author, date);
  }

  lemma {:induction false} DocumentRest(w: Wording, name: string, description: string, tags: seq<string>,
                     n: nat, author: string, date: string)
    ensures |Head(w, name, description, tags)| > 0
    ensures Document(w, name, description, tags, n, author, date)[1..]
         == Head(w, name, description, tags)[1..] + Patterns(w, n, n) + Footer(w, author, date)
  {
    var h := Head(w, name, description, tags);
    assert h[0] == Prose(FrontLines(name, description, tags));
  }

  /** The three sections of the head after its frontmatter piece are well formed. */
  lemma {:induction false} HeadRestWellFormed(w: Wording, name: string, description: string, tags: seq<string>)
    requires WordingOk(w)
    ensures |Head(w, name, description, tags)| > 0 && WellFormed(Head(w, name, description, tags)[1..])
  {
    var a := Section("Related Skills", w.relatedSkills);
    var b := Section("When to Use This Skill", w.whenToUse);
    var c := Section("Core Principles", w.principles);
    HeadTitlesOk();
    SectionOk("Related Skills", w.relatedSkills);
    SectionOk("When to Use This Skill", w.whenToUse);
    SectionOk("Core Principles", w.principles);
    WellFormedAppend(a, b);
    WellFormedAppend(a + b, c);
    assert Head(w, name, description, tags)[1..] == a + b + c;
  }

  /** `check_sync.py` on two documents the generator writes for the same answers in two
      wordings whose pattern placeholders differ: no issue other than a pattern-count
      difference, and exactly one warning per pattern, for the `Pattern i:` titles. */
  lemma {:induction false} WordedPairFindings(we: Wording, wj: Wording, name: string, description: string,
                           tags: seq<string>, n: nat, author: string, date: string, strict: bool)
    requires WordingOk(we) && WordingOk(wj) && we.patternName != wj.patternName
    requires OneLineAnswers(name, description, tags) && Plain(author) && Plain(date)
    ensures var en := TextView(Render(Document(we, name, description, tags, n, author, date)));
            var ja := TextView(Render(Document(wj, name, description, tags, n, author, date)));
            && Only(AllFindings(en, ja, strict), Issue)
               == Only(PatternFindings(en.patternCount, ja.patternCount), Issue)
            && |Only(AllFindings(en, ja, strict), Warning)| == n
  {
    var en := TextView(Render(Document(we, name, description, tags, n, author, date)));
    var ja := TextView(Render(Document(wj, name, description, tags, n, author, date)));
    RestWellFormed(we, name, description, tags, n, author, date);
    RestWellFormed(wj, name, description, tags, n, author, date);
    GeneratedShape(we, name, description, tags, n, author, date);
    GeneratedShape(wj, name, description, tags, n, author, date);
    TitledPairFindings(en, ja, n, we.patternName, wj.patternName, strict);
  }

  /** Two views that agree except for the pattern placeholder of their titles. */
  lemma {:induction false} TitledPairFindings(en: DocView, ja: DocView, n: nat, p: string, q: string, strict: bool)
    requires p != q && en.sections == Titles(n, p) && ja.sections == Titles(n, q)
    requires en.frontmatter == ja.frontmatter
    requires en.goodExamples == ja.goodExamples && en.badExamples == ja.badExamples
    requires en.tableCount == ja.tableCount
    ensures Only(AllFindings(en, ja, strict), Issue) == Only(PatternFindings(en.patternCount, ja.patternCount), Issue)
    ensures |Only(AllFindings(en, ja, strict), Warning)| == n
  {
    SameShapeFindings(en, ja, strict);
    TitlesDiffer(n, p, q);
    DifferingRange(Titles(n, p), Titles(n, q), 3, 3 + n, n + 8);
  }

  /** `check_sync.py` on the English and Japanese SKILL.md that the generator writes for
      the same answers, signed with the placeholder texts as it writes them: no issue
      other than a pattern-count difference, and exactly one warning per pattern, for the
      `Pattern i:` titles whose placeholder names differ between the languages. */
  lemma {:induction false} GeneratedPairFindings(name: string, description: string, tags: seq<string>, n: nat,
                              strict: bool)
    requires OneLineAnswers(name, description, tags)
    ensures var en := TextView(Render(AsWritten(English, name, description, tags, n)));
            var ja := TextView(Render(AsWritten(Japanese, name, description, tags, n)));
            && Only(AllFindings(en, ja, strict), Issue)
               == Only(PatternFindings(en.patternCount, ja.patternCount), Issue)
            && |Only(AllFindings(en, ja, strict), Warning)| == n
  {
    AuthorStripped();
    PatternNames();
    WordsOk(English);
    WordsOk(Japanese);
    PlaceholdersPlain();
    WordedPairFindings(Words(English), Words(Japanese), name, description, tags, n,
                       AuthorPlaceholder, DatePlaceholder, strict);
  }
}
