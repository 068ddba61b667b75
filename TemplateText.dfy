/**
 * The fixed text of the two documents that
 * skills/skill-template-generator/scripts/generate_template.py writes, SKILL.md and
 * references/SKILL.ja.md: the runs of prose lines between the H2 headings, the tables and
 * the ✅/❌ example markers, as the generator's string templates hold them, with a proof
 * that every line is plain prose. A plain line has no newline and no ✅/❌, does not open an
 * H2 heading and is no table line, so the readers of
 * skills/skill-revision-guide/scripts/check_sync.py find in a template only the structure
 * the generator builds on purpose.
 *
 * Long lines are written as concatenations of short literals. The concatenation is the
 * same text as the generator's line; it is split only because the verifier reads the
 * characters of a literal of a few dozen characters but not of a longer one, and
 * `ProseCat` joins the proofs about the pieces into one about the line.
 */
module TemplateText {
  import opened Text
  import opened Validator
  import opened SyncDocument
  import opened SyncChecker

  /** No newline and no ✅/❌ mark. */
  predicate Plain(t: string) {
    forall k | 0 <= k < |t| :: t[k] != '\n' && t[k] != GoodMark && t[k] != BadMark
  }

  /** A prose line: plain, and neither an H2 line (`##` and whitespace) nor, once stripped,
      a line starting with `|`. */
  predicate ProseOk(t: string) {
    Plain(t) && (|t| == 0 || (!IsSpace(t[0]) && t[0] != '|' && !IsH2Start(t)))
  }

  predicate AllProse(lines: seq<string>) {
    forall k | 0 <= k < |lines| :: ProseOk(lines[k])
  }

  /** A table line as the templates write one: plain and starting with `|`. */
  predicate RowOk(t: string) {
    Plain(t) && |t| > 0 && t[0] == '|'
  }

  predicate AllRows(rows: seq<string>) {
    forall k | 0 <= k < |rows| :: RowOk(rows[k])
  }

  /** A title `## ` can be followed by: plain, non-empty, without whitespace at either end. */
  predicate TitleOk(t: string) {
    Plain(t) && |t| > 0 && !IsSpace(t[0]) && !IsSpace(t[|t| - 1])
  }

  lemma {:induction false} PlainCat(a: string, b: string)
    requires Plain(a) && Plain(b)
    ensures Plain(a + b)
  {
  }

  /** A prose line stays prose when plain text is appended to it. */
  lemma {:induction false} ProseCat(a: string, b: string)
    requires ProseOk(a) && |a| >= 3 && Plain(b)
    ensures ProseOk(a + b)
  {
    assert (a + b)[..2] == a[..2];
  }

  lemma {:induction false} RowCat(a: string, b: string)
    requires RowOk(a) && Plain(b)
    ensures RowOk(a + b)
  {
  }

  lemma {:induction false} DigitsPlain(n: nat)
    ensures Plain(NatToString(n))
  {
  }

  // ---------------------------------------------------------------------------
  // Headings
  // ---------------------------------------------------------------------------

  /** The placeholders in the pattern headings. */
  const EnPatternName := "[Pattern Name Here]"
  const JaPatternName := "[パターン名]"

  /** The title of `## Pattern {pattern_num}: …`. */
  function PatternTitle(i: nat, placeholder: string): string {
    "Pattern " + NatToString(i) + ": " + placeholder
  }

  lemma {:induction false} PatternTitleOk(i: nat, placeholder: string)
    requires TitleOk(placeholder)
    ensures TitleOk(PatternTitle(i, placeholder))
  {
    DigitsPlain(i);
    PlainCat("Pattern ", NatToString(i));
    PlainCat("Pattern " + NatToString(i), ": ");
    PlainCat("Pattern " + NatToString(i) + ": ", placeholder);
  }

  /** The titles that are the same in every template and in both languages, and the two
      placeholders. */
  lemma HeadTitlesOk()
    ensures TitleOk("Related Skills") && TitleOk("When to Use This Skill")
         && TitleOk("Core Principles") && TitleOk(EnPatternName) && TitleOk(JaPatternName)
  {
    assert TitleOk("Related Skills") by {}
    assert TitleOk("When to Use This Skill") by {}
    assert TitleOk("Core Principles") by {}
    assert TitleOk(EnPatternName) by {}
  }

  lemma FooterTitlesOk()
    ensures TitleOk("Common Pitfalls") && TitleOk("Anti-Patterns")
         && TitleOk("Related Patterns " + "& Further Reading")
         && TitleOk("Changelog") && TitleOk("License")
  {
    assert TitleOk("Common Pitfalls") by {}
    assert TitleOk("Anti-Patterns") by {}
    assert TitleOk("Related Patterns " + "& Further Reading") by {
      PlainCat("Related Patterns ", "& Further Reading");
    }
    assert TitleOk("Changelog") by {}
  }

  // ---------------------------------------------------------------------------
  // The table of a pattern section
  // ---------------------------------------------------------------------------

  /** The pattern the third row of section `i` of `n` points to: the next one, and the
      first after the last. */
  function SeeAlso(i: nat, n: nat): nat {
    if i < n then i + 1 else 1
  }

  function EnScenarioRows(i: nat, n: nat): seq<string> {
    ["| Scenario | " + "Recommendation | Why |",
     "|----------|" + "----------------|-----|",
     "| [Scenario A] | " + "Use Pattern " + NatToString(i) + " | [Brief " + "explanation] |",
     "| [Scenario B] | " + "Consider " + "alternatives | " + "[Brief explanation] |",
     "| [Scenario C] | " + "See Pattern " + NatToString(SeeAlso(i, n)) + " | [Brief " + "explanation] |"]
  }

  lemma {:induction false} EnNumberedRowsOk(i: nat, j: nat)
    ensures RowOk("| [Scenario A] | " + "Use Pattern " + NatToString(i) + " | [Brief " + "explanation] |")
    ensures RowOk("| [Scenario C] | " + "See Pattern " + NatToString(j) + " | [Brief " + "explanation] |")
  {
    DigitsPlain(i);
    DigitsPlain(j);
    assert RowOk("| [Scenario A] | " + "Use Pattern " + NatToString(i) + " | [Brief " + "explanation] |") by {
      RowCat("| [Scenario A] | ", "Use Pattern ");
      RowCat("| [Scenario A] | " + "Use Pattern ", NatToString(i));
      RowCat("| [Scenario A] | " + "Use Pattern " + NatToString(i), " | [Brief ");
      RowCat("| [Scenario A] | " + "Use Pattern " + NatToString(i) + " | [Brief ", "explanation] |");
    }
    RowCat("| [Scenario C] | ", "See Pattern ");
    RowCat("| [Scenario C] | " + "See Pattern ", NatToString(j));
    RowCat("| [Scenario C] | " + "See Pattern " + NatToString(j), " | [Brief ");
    RowCat("| [Scenario C] | " + "See Pattern " + NatToString(j) + " | [Brief ", "explanation] |");
  }

  lemma {:induction false} EnScenarioRowsOk(i: nat, n: nat)
    ensures AllRows(EnScenarioRows(i, n))
  {
    EnNumberedRowsOk(i, SeeAlso(i, n));
    assert RowOk("| Scenario | " + "Recommendation | Why |") by {
      RowCat("| Scenario | ", "Recommendation | Why |");
    }
    assert RowOk("|----------|" + "----------------|-----|") by {
      RowCat("|----------|", "----------------|-----|");
    }
    assert RowOk("| [Scenario B] | " + "Consider " + "alternatives | " + "[Brief explanation] |") by {
      RowCat("| [Scenario B] | ", "Consider ");
      RowCat("| [Scenario B] | " + "Consider ", "alternatives | ");
      RowCat("| [Scenario B] | " + "Consider " + "alternatives | ", "[Brief explanation] |");
    }
  }

  function JaScenarioRows(i: nat, n: nat): seq<string> {
    ["| シナリオ | 推奨 | 理由 |",
     "|----------|" + "------|------|",
     "| [シナリオA] | パターン" + NatToString(i) + "を使用 | [簡単な説明] |",
     "| [シナリオB] | " + "代替案を検討 | [簡単な説明] |",
     "| [シナリオC] | パターン" + NatToString(SeeAlso(i, n)) + "を参照 | [簡単な説明] |"]
  }

  lemma {:induction false} JaScenarioRowsOk(i: nat, n: nat)
    ensures AllRows(JaScenarioRows(i, n))
  {
    DigitsPlain(i);
    DigitsPlain(SeeAlso(i, n));
    assert RowOk("| シナリオ | 推奨 | 理由 |") by {}
    assert RowOk("|----------|" + "------|------|") by {
      RowCat("|----------|", "------|------|");
    }
    assert RowOk("| [シナリオA] | パターン" + NatToString(i) + "を使用 | [簡単な説明] |") by {
      RowCat("| [シナリオA] | パターン", NatToString(i));
      RowCat("| [シナリオA] | パターン" + NatToString(i), "を使用 | [簡単な説明] |");
    }
    assert RowOk("| [シナリオB] | " + "代替案を検討 | [簡単な説明] |") by {
      RowCat("| [シナリオB] | ", "代替案を検討 | [簡単な説明] |");
    }
    assert RowOk("| [シナリオC] | パターン" + NatToString(SeeAlso(i, n)) + "を参照 | [簡単な説明] |") by {
      RowCat("| [シナリオC] | パターン", NatToString(SeeAlso(i, n)));
      RowCat("| [シナリオC] | パターン" + NatToString(SeeAlso(i, n)), "を参照 | [簡単な説明] |");
    }
  }

  // ---------------------------------------------------------------------------
  // The signature at the end of each document
  // ---------------------------------------------------------------------------

  /** What the footer's `{self.AUTHOR}` and `{datetime.now().strftime("%Y-%m-%d")}` come
      out as: the footer is a plain string literal, not an f-string, so the braces are
      written as they are. */
  const AuthorPlaceholder := "{self.AUTHOR}"
  const DatePlaceholder := "{datetime.now()" + ".strftime(\"%Y-%m-%d\")}"

  lemma PlaceholdersPlain()
    ensures Plain(AuthorPlaceholder) && Plain(DatePlaceholder)
  {
    PlainCat("{datetime.now()", ".strftime(\"%Y-%m-%d\")}");
  }

  /** The last three lines, for the author and date texts the footer holds. */
  function EnSignature(author: string, date: string): seq<string> {
    ["**Generated by**: " + "GitHub Copilot Skill " + "Template Generator",
     "**Author**: " + author,
     "**Last Updated**: " + date]
  }

  lemma {:induction false} EnSignatureProse(author: string, date: string)
    requires Plain(author) && Plain(date)
    ensures AllProse(EnSignature(author, date))
  {
    ProseCat("**Generated by**: ", "GitHub Copilot Skill ");
    ProseCat("**Generated by**: " + "GitHub Copilot Skill ", "Template Generator");
    ProseCat("**Author**: ", author);
    ProseCat("**Last Updated**: ", date);
  }

  function JaSignature(author: string, date: string): seq<string> {
    ["**生成者**: " + "GitHub Copilot Skill " + "Template Generator",
     "**Author**: " + author,
     "**最終更新**: " + date]
  }

  lemma {:induction false} JaSignatureProse(author: string, date: string)
    requires Plain(author) && Plain(date)
    ensures AllProse(JaSignature(author, date))
  {
    ProseCat("**生成者**: ", "GitHub Copilot Skill ");
    ProseCat("**生成者**: " + "GitHub Copilot Skill ", "Template Generator");
    ProseCat("**Author**: ", author);
    ProseCat("**最終更新**: ", date);
  }

  // ---------------------------------------------------------------------------
  // SKILL.md (English)
  // ---------------------------------------------------------------------------

  /** Under "Related Skills": a placeholder comment and an example entry. */
  const EnRelatedSkillsHint: seq<string> := [
    "",
    "<!-- Add related " + "skills here -->",
    "<!-- Example:",
    "- **`related-skill-name`** " + "- Brief description " + "of relationship",
    "-->",
    ""]

  lemma EnRelatedSkillsHintProse0()
    ensures forall k | 0 <= k < 3 :: ProseOk(EnRelatedSkillsHint[k])
  {
    assert ProseOk("") by {}
    assert ProseOk("<!-- Add related " + "skills here -->") by {
      ProseCat("<!-- Add related ", "skills here -->");
    }
    assert ProseOk("<!-- Example:") by {}
  }

  lemma EnRelatedSkillsHintProse1()
    ensures forall k | 3 <= k < 6 :: ProseOk(EnRelatedSkillsHint[k])
  {
    assert ProseOk("- **`related-skill-name`** " + "- Brief description " + "of relationship") by {
      ProseCat("- **`related-skill-name`** ", "- Brief description ");
      ProseCat("- **`related-skill-name`** " + "- Brief description ", "of relationship");
    }
    assert ProseOk("-->") by {}
    assert ProseOk("") by {}
  }

  lemma EnRelatedSkillsHintProse()
    ensures AllProse(EnRelatedSkillsHint)
  {
    EnRelatedSkillsHintProse0();
    EnRelatedSkillsHintProse1();
  }

  /** Under "When to Use This Skill": five placeholder scenarios. */
  const EnWhenToUseList: seq<string> := [
    "",
    "Use this skill when:",
    "- [Add specific " + "scenario 1]",
    "- [Add specific " + "scenario 2]",
    "- [Add specific " + "scenario 3]",
    "- [Add specific " + "scenario 4]",
    "- [Add specific " + "scenario 5]",
    "",
    "---",
    ""]

  lemma EnWhenToUseListProse0()
    ensures forall k | 0 <= k < 4 :: ProseOk(EnWhenToUseList[k])
  {
    assert ProseOk("") by {}
    assert ProseOk("Use this skill when:") by {}
    assert ProseOk("- [Add specific " + "scenario 1]") by {
      ProseCat("- [Add specific ", "scenario 1]");
    }
    assert ProseOk("- [Add specific " + "scenario 2]") by {
      ProseCat("- [Add specific ", "scenario 2]");
    }
  }

  lemma EnWhenToUseListProse1()
    ensures forall k | 4 <= k < 9 :: ProseOk(EnWhenToUseList[k])
  {
    assert ProseOk("- [Add specific " + "scenario 3]") by {
      ProseCat("- [Add specific ", "scenario 3]");
    }
    assert ProseOk("- [Add specific " + "scenario 4]") by {
      ProseCat("- [Add specific ", "scenario 4]");
    }
    assert ProseOk("- [Add specific " + "scenario 5]") by {
      ProseCat("- [Add specific ", "scenario 5]");
    }
    assert ProseOk("") by {}
    assert ProseOk("---") by {}
  }

  lemma EnWhenToUseListProse2()
    ensures forall k | 9 <= k < 10 :: ProseOk(EnWhenToUseList[k])
  {
    assert ProseOk("") by {}
  }

  lemma EnWhenToUseListProse()
    ensures AllProse(EnWhenToUseList)
  {
    EnWhenToUseListProse0();
    EnWhenToUseListProse1();
    EnWhenToUseListProse2();
  }

  /** Under "Core Principles": five placeholder principles. */
  const EnPrinciplesList: seq<string> := [
    "",
    "1. **[Principle " + "1]** - One-line " + "summary of key " + "concept",
    "2. **[Principle " + "2]** - One-line " + "summary of key " + "concept",
    "3. **[Principle " + "3]** - One-line " + "summary of key " + "concept",
    "4. **[Principle " + "4]** - One-line " + "summary of key " + "concept (optional)",
    "5. **[Principle " + "5]** - One-line " + "summary of key " + "concept (optional)",
    "",
    "---",
    ""]

  lemma EnPrinciplesListProse0()
    ensures forall k | 0 <= k < 2 :: ProseOk(EnPrinciplesList[k])
  {
    assert ProseOk("") by {}
    assert ProseOk("1. **[Principle " + "1]** - One-line " + "summary of key " + "concept") by {
      ProseCat("1. **[Principle ", "1]** - One-line ");
      ProseCat("1. **[Principle " + "1]** - One-line ", "summary of key ");
      ProseCat("1. **[Principle " + "1]** - One-line " + "summary of key ", "concept");
    }
  }

  lemma EnPrinciplesListProse1()
    ensures forall k | 2 <= k < 3 :: ProseOk(EnPrinciplesList[k])
  {
    assert ProseOk("2. **[Principle " + "2]** - One-line " + "summary of key " + "concept") by {
      ProseCat("2. **[Principle ", "2]** - One-line ");
      ProseCat("2. **[Principle " + "2]** - One-line ", "summary of key ");
      ProseCat("2. **[Principle " + "2]** - One-line " + "summary of key ", "concept");
    }
  }

  lemma EnPrinciplesListProse2()
    ensures forall k | 3 <= k < 4 :: ProseOk(EnPrinciplesList[k])
  {
    assert ProseOk("3. **[Principle " + "3]** - One-line " + "summary of key " + "concept") by {
      ProseCat("3. **[Principle ", "3]** - One-line ");
      ProseCat("3. **[Principle " + "3]** - One-line ", "summary of key ");
      ProseCat("3. **[Principle " + "3]** - One-line " + "summary of key ", "concept");
    }
  }

  lemma EnPrinciplesListProse3()
    ensures forall k | 4 <= k < 5 :: ProseOk(EnPrinciplesList[k])
  {
    assert ProseOk("4. **[Principle " + "4]** - One-line " + "summary of key " + "concept (optional)") by {
      ProseCat("4. **[Principle ", "4]** - One-line ");
      ProseCat("4. **[Principle " + "4]** - One-line ", "summary of key ");
      ProseCat("4. **[Principle " + "4]** - One-line " + "summary of key ", "concept (optional)");
    }
  }

  lemma EnPrinciplesListProse4()
    ensures forall k | 5 <= k < 9 :: ProseOk(EnPrinciplesList[k])
  {
    assert ProseOk("5. **[Principle " + "5]** - One-line " + "summary of key " + "concept (optional)") by {
      ProseCat("5. **[Principle ", "5]** - One-line ");
      ProseCat("5. **[Principle " + "5]** - One-line ", "summary of key ");
      ProseCat("5. **[Principle " + "5]** - One-line " + "summary of key ", "concept (optional)");
    }
    assert ProseOk("") by {}
    assert ProseOk("---") by {}
    assert ProseOk("") by {}
  }

  lemma EnPrinciplesListProse()
    ensures AllProse(EnPrinciplesList)
  {
    EnPrinciplesListProse0();
    EnPrinciplesListProse1();
    EnPrinciplesListProse2();
    EnPrinciplesListProse3();
    EnPrinciplesListProse4();
  }

  /** A pattern's overview and the opening of its basic example. */
  const EnPatternOpening: seq<string> := [
    "",
    "### Overview",
    "",
    "[Brief explanation " + "of what this " + "pattern solves and " + "why it matters - " + "2-3 sentences]",
    "",
    "### Basic Example",
    "",
    "```"]

  lemma EnPatternOpeningProse0()
    ensures forall k | 0 <= k < 5 :: ProseOk(EnPatternOpening[k])
  {
    assert ProseOk("") by {}
    assert ProseOk("### Overview") by {}
    assert ProseOk("") by {}
    assert ProseOk("[Brief explanation " + "of what this " + "pattern solves and " + "why it matters - " + "2-3 sentences]") by {
      ProseCat("[Brief explanation ", "of what this ");
      ProseCat("[Brief explanation " + "of what this ", "pattern solves and ");
      ProseCat("[Brief explanation " + "of what this " + "pattern solves and ", "why it matters - ");
      ProseCat("[Brief explanation " + "of what this " + "pattern solves and " + "why it matters - ", "2-3 sentences]");
    }
    assert ProseOk("") by {}
  }

  lemma EnPatternOpeningProse1()
    ensures forall k | 5 <= k < 8 :: ProseOk(EnPatternOpening[k])
  {
    assert ProseOk("### Basic Example") by {}
    assert ProseOk("") by {}
    assert ProseOk("```") by {}
  }

  lemma EnPatternOpeningProse()
    ensures AllProse(EnPatternOpening)
  {
    EnPatternOpeningProse0();
    EnPatternOpeningProse1();
  }

  /** The end of the basic example and the conditions list before the table. */
  const EnPatternWhenToUse: seq<string> := [
    "// Add basic " + "implementation " + "example",
    "```",
    "",
    "### When to Use",
    "",
    "Use this pattern " + "when:",
    "- [Specific " + "condition A]",
    "- [Specific " + "condition B]",
    "- [Specific " + "condition C]"]

  lemma EnPatternWhenToUseProse0()
    ensures forall k | 0 <= k < 5 :: ProseOk(EnPatternWhenToUse[k])
  {
    assert ProseOk("// Add basic " + "implementation " + "example") by {
      ProseCat("// Add basic ", "implementation ");
      ProseCat("// Add basic " + "implementation ", "example");
    }
    assert ProseOk("```") by {}
    assert ProseOk("") by {}
    assert ProseOk("### When to Use") by {}
    assert ProseOk("") by {}
  }

  lemma EnPatternWhenToUseProse1()
    ensures forall k | 5 <= k < 9 :: ProseOk(EnPatternWhenToUse[k])
  {
    assert ProseOk("Use this pattern " + "when:") by {
      ProseCat("Use this pattern ", "when:");
    }
    assert ProseOk("- [Specific " + "condition A]") by {
      ProseCat("- [Specific ", "condition A]");
    }
    assert ProseOk("- [Specific " + "condition B]") by {
      ProseCat("- [Specific ", "condition B]");
    }
    assert ProseOk("- [Specific " + "condition C]") by {
      ProseCat("- [Specific ", "condition C]");
    }
  }

  lemma EnPatternWhenToUseProse()
    ensures AllProse(EnPatternWhenToUse)
  {
    EnPatternWhenToUseProse0();
    EnPatternWhenToUseProse1();
  }

  /** After the table: the opening of the configuration example. */
  const EnPatternConfiguration: seq<string> := [
    "### With " + "Configuration",
    "",
    "```"]

  lemma EnPatternConfigurationProse()
    ensures AllProse(EnPatternConfiguration)
  {
    assert ProseOk("### With " + "Configuration") by {
      ProseCat("### With ", "Configuration");
    }
    assert ProseOk("") by {}
    assert ProseOk("```") by {}
  }

  /** The end of the configuration example and the opening of the advanced one. */
  const EnPatternAdvanced: seq<string> := [
    "// Add " + "configuration " + "example",
    "```",
    "",
    "### Advanced Pattern",
    "",
    "```"]

  lemma EnPatternAdvancedProse0()
    ensures forall k | 0 <= k < 5 :: ProseOk(EnPatternAdvanced[k])
  {
    assert ProseOk("// Add " + "configuration " + "example") by {
      ProseCat("// Add ", "configuration ");
      ProseCat("// Add " + "configuration ", "example");
    }
    assert ProseOk("```") by {}
    assert ProseOk("") by {}
    assert ProseOk("### Advanced Pattern") by {}
    assert ProseOk("") by {}
  }

  lemma EnPatternAdvancedProse1()
    ensures forall k | 5 <= k < 6 :: ProseOk(EnPatternAdvanced[k])
  {
    assert ProseOk("```") by {}
  }

  lemma EnPatternAdvancedProse()
    ensures AllProse(EnPatternAdvanced)
  {
    EnPatternAdvancedProse0();
    EnPatternAdvancedProse1();
  }

  /** The end of the advanced example and the rule closing the section. */
  const EnPatternClosing: seq<string> := [
    "// Add advanced " + "implementation with:",
    "// - Error handling",
    "// - Cancellation " + "support",
    "// - Resource " + "management",
    "// - " + "Logging/monitoring",
    "```",
    "",
    "---",
    ""]

  lemma EnPatternClosingProse0()
    ensures forall k | 0 <= k < 3 :: ProseOk(EnPatternClosing[k])
  {
    assert ProseOk("// Add advanced " + "implementation with:") by {
      ProseCat("// Add advanced ", "implementation with:");
    }
    assert ProseOk("// - Error handling") by {}
    assert ProseOk("// - Cancellation " + "support") by {
      ProseCat("// - Cancellation ", "support");
    }
  }

  lemma EnPatternClosingProse1()
    ensures forall k | 3 <= k < 8 :: ProseOk(EnPatternClosing[k])
  {
    assert ProseOk("// - Resource " + "management") by {
      ProseCat("// - Resource ", "management");
    }
    assert ProseOk("// - " + "Logging/monitoring") by {
      ProseCat("// - ", "Logging/monitoring");
    }
    assert ProseOk("```") by {}
    assert ProseOk("") by {}
    assert ProseOk("---") by {}
  }

  lemma EnPatternClosingProse2()
    ensures forall k | 8 <= k < 9 :: ProseOk(EnPatternClosing[k])
  {
    assert ProseOk("") by {}
  }

  lemma EnPatternClosingProse()
    ensures AllProse(EnPatternClosing)
  {
    EnPatternClosingProse0();
    EnPatternClosingProse1();
    EnPatternClosingProse2();
  }

  /** Under "Common Pitfalls": the first pitfall and its wrong example. */
  const EnPitfallProblem: seq<string> := [
    "",
    "### 1. [Pitfall " + "Name] - Brief " + "Description",
    "",
    "**Problem**: What " + "users typically do " + "wrong and why it " + "fails.",
    "",
    "```"]

  lemma EnPitfallProblemProse0()
    ensures forall k | 0 <= k < 3 :: ProseOk(EnPitfallProblem[k])
  {
    assert ProseOk("") by {}
    assert ProseOk("### 1. [Pitfall " + "Name] - Brief " + "Description") by {
      ProseCat("### 1. [Pitfall ", "Name] - Brief ");
      ProseCat("### 1. [Pitfall " + "Name] - Brief ", "Description");
    }
    assert ProseOk("") by {}
  }

  lemma EnPitfallProblemProse1()
    ensures forall k | 3 <= k < 6 :: ProseOk(EnPitfallProblem[k])
  {
    assert ProseOk("**Problem**: What " + "users typically do " + "wrong and why it " + "fails.") by {
      ProseCat("**Problem**: What ", "users typically do ");
      ProseCat("**Problem**: What " + "users typically do ", "wrong and why it ");
      ProseCat("**Problem**: What " + "users typically do " + "wrong and why it ", "fails.");
    }
    assert ProseOk("") by {}
    assert ProseOk("```") by {}
  }

  lemma EnPitfallProblemProse()
    ensures AllProse(EnPitfallProblem)
  {
    EnPitfallProblemProse0();
    EnPitfallProblemProse1();
  }

  /** The solution and its correct example. */
  const EnPitfallSolution: seq<string> := [
    "// Add anti-pattern " + "example",
    "```",
    "",
    "**Solution**: How " + "to fix it and why " + "this approach works.",
    "",
    "```"]

  lemma EnPitfallSolutionProse0()
    ensures forall k | 0 <= k < 5 :: ProseOk(EnPitfallSolution[k])
  {
    assert ProseOk("// Add anti-pattern " + "example") by {
      ProseCat("// Add anti-pattern ", "example");
    }
    assert ProseOk("```") by {}
    assert ProseOk("") by {}
    assert ProseOk("**Solution**: How " + "to fix it and why " + "this approach works.") by {
      ProseCat("**Solution**: How ", "to fix it and why ");
      ProseCat("**Solution**: How " + "to fix it and why ", "this approach works.");
    }
    assert ProseOk("") by {}
  }

  lemma EnPitfallSolutionProse1()
    ensures forall k | 5 <= k < 6 :: ProseOk(EnPitfallSolution[k])
  {
    assert ProseOk("```") by {}
  }

  lemma EnPitfallSolutionProse()
    ensures AllProse(EnPitfallSolution)
  {
    EnPitfallSolutionProse0();
    EnPitfallSolutionProse1();
  }

  /** A second pitfall placeholder and the closing rule. */
  const EnPitfallMore: seq<string> := [
    "// Add correct " + "pattern example",
    "```",
    "",
    "### 2. [Another " + "Pitfall Name]",
    "",
    "[Add more pitfalls " + "as needed...]",
    "",
    "---",
    ""]

  lemma EnPitfallMoreProse0()
    ensures forall k | 0 <= k < 5 :: ProseOk(EnPitfallMore[k])
  {
    assert ProseOk("// Add correct " + "pattern example") by {
      ProseCat("// Add correct ", "pattern example");
    }
    assert ProseOk("```") by {}
    assert ProseOk("") by {}
    assert ProseOk("### 2. [Another " + "Pitfall Name]") by {
      ProseCat("### 2. [Another ", "Pitfall Name]");
    }
    assert ProseOk("") by {}
  }

  lemma EnPitfallMoreProse1()
    ensures forall k | 5 <= k < 9 :: ProseOk(EnPitfallMore[k])
  {
    assert ProseOk("[Add more pitfalls " + "as needed...]") by {
      ProseCat("[Add more pitfalls ", "as needed...]");
    }
    assert ProseOk("") by {}
    assert ProseOk("---") by {}
    assert ProseOk("") by {}
  }

  lemma EnPitfallMoreProse()
    ensures AllProse(EnPitfallMore)
  {
    EnPitfallMoreProse0();
    EnPitfallMoreProse1();
  }

  /** Under "Anti-Patterns": the description and its wrong example. */
  const EnAntiPatternWhat: seq<string> := [
    "",
    "### [Anti-Pattern " + "Name]",
    "",
    "**What**: " + "Description of the " + "anti-pattern at an " + "architectural level.",
    "",
    "```"]

  lemma EnAntiPatternWhatProse0()
    ensures forall k | 0 <= k < 5 :: ProseOk(EnAntiPatternWhat[k])
  {
    assert ProseOk("") by {}
    assert ProseOk("### [Anti-Pattern " + "Name]") by {
      ProseCat("### [Anti-Pattern ", "Name]");
    }
    assert ProseOk("") by {}
    assert ProseOk("**What**: " + "Description of the " + "anti-pattern at an " + "architectural level.") by {
      ProseCat("**What**: ", "Description of the ");
      ProseCat("**What**: " + "Description of the ", "anti-pattern at an ");
      ProseCat("**What**: " + "Description of the " + "anti-pattern at an ", "architectural level.");
    }
    assert ProseOk("") by {}
  }

  lemma EnAntiPatternWhatProse1()
    ensures forall k | 5 <= k < 6 :: ProseOk(EnAntiPatternWhat[k])
  {
    assert ProseOk("```") by {}
  }

  lemma EnAntiPatternWhatProse()
    ensures AllProse(EnAntiPatternWhat)
  {
    EnAntiPatternWhatProse0();
    EnAntiPatternWhatProse1();
  }

  /** Why it is wrong, and the better approach. */
  const EnAntiPatternWhy: seq<string> := [
    "// Add anti-pattern " + "example",
    "```",
    "",
    "**Why It's Wrong**:",
    "- Reason 1: " + "[Explain violation]",
    "- Reason 2: " + "[Explain problem]",
    "- Reason 3: " + "[Explain " + "scalability issue]",
    "",
    "**Better Approach**:",
    "",
    "```"]

  lemma EnAntiPatternWhyProse0()
    ensures forall k | 0 <= k < 5 :: ProseOk(EnAntiPatternWhy[k])
  {
    assert ProseOk("// Add anti-pattern " + "example") by {
      ProseCat("// Add anti-pattern ", "example");
    }
    assert ProseOk("```") by {}
    assert ProseOk("") by {}
    assert ProseOk("**Why It's Wrong**:") by {}
    assert ProseOk("- Reason 1: " + "[Explain violation]") by {
      ProseCat("- Reason 1: ", "[Explain violation]");
    }
  }

  lemma EnAntiPatternWhyProse1()
    ensures forall k | 5 <= k < 10 :: ProseOk(EnAntiPatternWhy[k])
  {
    assert ProseOk("- Reason 2: " + "[Explain problem]") by {
      ProseCat("- Reason 2: ", "[Explain problem]");
    }
    assert ProseOk("- Reason 3: " + "[Explain " + "scalability issue]") by {
      ProseCat("- Reason 3: ", "[Explain ");
      ProseCat("- Reason 3: " + "[Explain ", "scalability issue]");
    }
    assert ProseOk("") by {}
    assert ProseOk("**Better Approach**:") by {}
    assert ProseOk("") by {}
  }

  lemma EnAntiPatternWhyProse2()
    ensures forall k | 10 <= k < 11 :: ProseOk(EnAntiPatternWhy[k])
  {
    assert ProseOk("```") by {}
  }

  lemma EnAntiPatternWhyProse()
    ensures AllProse(EnAntiPatternWhy)
  {
    EnAntiPatternWhyProse0();
    EnAntiPatternWhyProse1();
    EnAntiPatternWhyProse2();
  }

  /** The end of the better approach and the closing rule. */
  const EnAntiPatternBetter: seq<string> := [
    "// Add correct " + "pattern example",
    "```",
    "",
    "---",
    ""]

  lemma EnAntiPatternBetterProse()
    ensures AllProse(EnAntiPatternBetter)
  {
    assert ProseOk("// Add correct " + "pattern example") by {
      ProseCat("// Add correct ", "pattern example");
    }
    assert ProseOk("```") by {}
    assert ProseOk("") by {}
    assert ProseOk("---") by {}
    assert ProseOk("") by {}
  }

  /** Under "Related Patterns & Further Reading": three lists of placeholders. Each line is
      split into short literals, as everywhere in this module, so that the verifier can
      read every character; the split changes no text. */
  const EnFurtherReading: seq<string> := [
    "",
    "### Related Design " + "Patterns",
    "- [Pattern 1]: " + "Brief description " + "and when to use",
    "- [Pattern 2]: " + "Brief description " + "and when to use",
    "",
    "### Official " + "Documentation",
    "- [Link to official " + "docs]",
    "- [Link to relevant " + "API reference]",
    "",
    "### Community " + "Resources",
    "- [Relevant blog " + "post or tutorial]",
    "- [GitHub " + "repository or " + "example]",
    "",
    "---",
    ""]

  lemma EnFurtherReadingProse0()
    ensures forall k | 0 <= k < 3 :: ProseOk(EnFurtherReading[k])
  {
    assert ProseOk("") by {}
    assert ProseOk("### Related Design " + "Patterns") by {
      ProseCat("### Related Design ", "Patterns");
    }
    assert ProseOk("- [Pattern 1]: " + "Brief description " + "and when to use") by {
      ProseCat("- [Pattern 1]: ", "Brief description ");
      ProseCat("- [Pattern 1]: " + "Brief description ", "and when to use");
    }
  }

  lemma EnFurtherReadingProse1()
    ensures forall k | 3 <= k < 7 :: ProseOk(EnFurtherReading[k])
  {
    assert ProseOk("- [Pattern 2]: " + "Brief description " + "and when to use") by {
      ProseCat("- [Pattern 2]: ", "Brief description ");
      ProseCat("- [Pattern 2]: " + "Brief description ", "and when to use");
    }
    assert ProseOk("") by {}
    assert ProseOk("### Official " + "Documentation") by {
      ProseCat("### Official ", "Documentation");
    }
    assert ProseOk("- [Link to official " + "docs]") by {
      ProseCat("- [Link to official ", "docs]");
    }
  }

  lemma EnFurtherReadingProse2()
    ensures forall k | 7 <= k < 11 :: ProseOk(EnFurtherReading[k])
  {
    assert ProseOk("- [Link to relevant " + "API reference]") by {
      ProseCat("- [Link to relevant ", "API reference]");
    }
    assert ProseOk("") by {}
    assert ProseOk("### Community " + "Resources") by {
      ProseCat("### Community ", "Resources");
    }
    assert ProseOk("- [Relevant blog " + "post or tutorial]") by {
      ProseCat("- [Relevant blog ", "post or tutorial]");
    }
  }

  lemma EnFurtherReadingProse3()
    ensures forall k | 11 <= k < 15 :: ProseOk(EnFurtherReading[k])
  {
    assert ProseOk("- [GitHub " + "repository or " + "example]") by {
      ProseCat("- [GitHub ", "repository or ");
      ProseCat("- [GitHub " + "repository or ", "example]");
    }
    assert ProseOk("") by {}
    assert ProseOk("---") by {}
    assert ProseOk("") by {}
  }

  lemma EnFurtherReadingProse()
    ensures AllProse(EnFurtherReading)
  {
    EnFurtherReadingProse0();
    EnFurtherReadingProse1();
    EnFurtherReadingProse2();
    EnFurtherReadingProse3();
  }

  /** Under "Changelog": the link to the changelog. */
  const EnChangelogNote: seq<string> := [
    "",
    "See " + "[CHANGELOG.md]" + "(./CHANGELOG.md) " + "for version history.",
    "",
    "---",
    ""]

  lemma EnChangelogNoteProse()
    ensures AllProse(EnChangelogNote)
  {
    assert ProseOk("") by {}
    assert ProseOk("See " + "[CHANGELOG.md]" + "(./CHANGELOG.md) " + "for version history.") by {
      ProseCat("See ", "[CHANGELOG.md]");
      ProseCat("See " + "[CHANGELOG.md]", "(./CHANGELOG.md) ");
      ProseCat("See " + "[CHANGELOG.md]" + "(./CHANGELOG.md) ", "for version history.");
    }
    assert ProseOk("") by {}
    assert ProseOk("---") by {}
    assert ProseOk("") by {}
  }

  /** Under "License": the licence sentence, up to the signature lines. */
  const EnLicenseNote: seq<string> := [
    "",
    "This skill " + "documentation is " + "provided as-is for " + "use with GitHub " + "Copilot.",
    "",
    "---",
    ""]

  lemma EnLicenseNoteProse()
    ensures AllProse(EnLicenseNote)
  {
    assert ProseOk("") by {}
    assert ProseOk("This skill " + "documentation is " + "provided as-is for " + "use with GitHub " + "Copilot.") by {
      ProseCat("This skill ", "documentation is ");
      ProseCat("This skill " + "documentation is ", "provided as-is for ");
      ProseCat("This skill " + "documentation is " + "provided as-is for ", "use with GitHub ");
      ProseCat("This skill " + "documentation is " + "provided as-is for " + "use with GitHub ", "Copilot.");
    }
    assert ProseOk("") by {}
    assert ProseOk("---") by {}
    assert ProseOk("") by {}
  }

  // ---------------------------------------------------------------------------
  // SKILL.ja.md (Japanese)
  // ---------------------------------------------------------------------------

  /** Under "Related Skills": a placeholder comment and an example entry. */
  const JaRelatedSkillsHint: seq<string> := [
    "",
    "<!-- 関連するスキルをここに追加 " + "-->",
    "<!-- 例:",
    "- **`related-skill-name`** " + "- 関係の簡単な説明",
    "-->",
    ""]

  lemma JaRelatedSkillsHintProse0()
    ensures forall k | 0 <= k < 5 :: ProseOk(JaRelatedSkillsHint[k])
  {
    assert ProseOk("") by {}
    assert ProseOk("<!-- 関連するスキルをここに追加 " + "-->") by {
      ProseCat("<!-- 関連するスキルをここに追加 ", "-->");
    }
    assert ProseOk("<!-- 例:") by {}
    assert ProseOk("- **`related-skill-name`** " + "- 関係の簡単な説明") by {
      ProseCat("- **`related-skill-name`** ", "- 関係の簡単な説明");
    }
    assert ProseOk("-->") by {}
  }

  lemma JaRelatedSkillsHintProse1()
    ensures forall k | 5 <= k < 6 :: ProseOk(JaRelatedSkillsHint[k])
  {
    assert ProseOk("") by {}
  }

  lemma JaRelatedSkillsHintProse()
    ensures AllProse(JaRelatedSkillsHint)
  {
    JaRelatedSkillsHintProse0();
    JaRelatedSkillsHintProse1();
  }

  /** Under "When to Use This Skill": five placeholder scenarios. */
  const JaWhenToUseList: seq<string> := [
    "",
    "このスキルを使用する場面：",
    "- [具体的なシナリオ1を追加]",
    "- [具体的なシナリオ2を追加]",
    "- [具体的なシナリオ3を追加]",
    "- [具体的なシナリオ4を追加]",
    "- [具体的なシナリオ5を追加]",
    "",
    "---",
    ""]

  lemma JaWhenToUseListProse0()
    ensures forall k | 0 <= k < 5 :: ProseOk(JaWhenToUseList[k])
  {
    assert ProseOk("") by {}
    assert ProseOk("このスキルを使用する場面：") by {}
    assert ProseOk("- [具体的なシナリオ1を追加]") by {}
    assert ProseOk("- [具体的なシナリオ2を追加]") by {}
    assert ProseOk("- [具体的なシナリオ3を追加]") by {}
  }

  lemma JaWhenToUseListProse1()
    ensures forall k | 5 <= k < 10 :: ProseOk(JaWhenToUseList[k])
  {
    assert ProseOk("- [具体的なシナリオ4を追加]") by {}
    assert ProseOk("- [具体的なシナリオ5を追加]") by {}
    assert ProseOk("") by {}
    assert ProseOk("---") by {}
    assert ProseOk("") by {}
  }

  lemma JaWhenToUseListProse()
    ensures AllProse(JaWhenToUseList)
  {
    JaWhenToUseListProse0();
    JaWhenToUseListProse1();
  }

  /** Under "Core Principles": five placeholder principles. */
  const JaPrinciplesList: seq<string> := [
    "",
    "このスキルの基盤となる原則：",
    "",
    "1. **[原則1]** - " + "重要な概念の1行サマリー",
    "2. **[原則2]** - " + "重要な概念の1行サマリー",
    "3. **[原則3]** - " + "重要な概念の1行サマリー",
    "4. **[原則4]** - " + "重要な概念の1行サマリー（オプション）",
    "5. **[原則5]** - " + "重要な概念の1行サマリー（オプション）",
    "",
    "---",
    ""]

  lemma JaPrinciplesListProse0()
    ensures forall k | 0 <= k < 5 :: ProseOk(JaPrinciplesList[k])
  {
    assert ProseOk("") by {}
    assert ProseOk("このスキルの基盤となる原則：") by {}
    assert ProseOk("") by {}
    assert ProseOk("1. **[原則1]** - " + "重要な概念の1行サマリー") by {
      ProseCat("1. **[原則1]** - ", "重要な概念の1行サマリー");
    }
    assert ProseOk("2. **[原則2]** - " + "重要な概念の1行サマリー") by {
      ProseCat("2. **[原則2]** - ", "重要な概念の1行サマリー");
    }
  }

  lemma JaPrinciplesListProse1()
    ensures forall k | 5 <= k < 10 :: ProseOk(JaPrinciplesList[k])
  {
    assert ProseOk("3. **[原則3]** - " + "重要な概念の1行サマリー") by {
      ProseCat("3. **[原則3]** - ", "重要な概念の1行サマリー");
    }
    assert ProseOk("4. **[原則4]** - " + "重要な概念の1行サマリー（オプション）") by {
      ProseCat("4. **[原則4]** - ", "重要な概念の1行サマリー（オプション）");
    }
    assert ProseOk("5. **[原則5]** - " + "重要な概念の1行サマリー（オプション）") by {
      ProseCat("5. **[原則5]** - ", "重要な概念の1行サマリー（オプション）");
    }
    assert ProseOk("") by {}
    assert ProseOk("---") by {}
  }

  lemma JaPrinciplesListProse2()
    ensures forall k | 10 <= k < 11 :: ProseOk(JaPrinciplesList[k])
  {
    assert ProseOk("") by {}
  }

  lemma JaPrinciplesListProse()
    ensures AllProse(JaPrinciplesList)
  {
    JaPrinciplesListProse0();
    JaPrinciplesListProse1();
    JaPrinciplesListProse2();
  }

  /** A pattern's overview and the opening of its basic example. */
  const JaPatternOpening: seq<string> := [
    "",
    "### Overview",
    "",
    "[このパターンが何を解決するか、なぜ重要かの簡単な説明 " + "- 2-3文]",
    "",
    "### Basic Example",
    "",
    "```"]

  lemma JaPatternOpeningProse0()
    ensures forall k | 0 <= k < 5 :: ProseOk(JaPatternOpening[k])
  {
    assert ProseOk("") by {}
    assert ProseOk("### Overview") by {}
    assert ProseOk("") by {}
    assert ProseOk("[このパターンが何を解決するか、なぜ重要かの簡単な説明 " + "- 2-3文]") by {
      ProseCat("[このパターンが何を解決するか、なぜ重要かの簡単な説明 ", "- 2-3文]");
    }
    assert ProseOk("") by {}
  }

  lemma JaPatternOpeningProse1()
    ensures forall k | 5 <= k < 8 :: ProseOk(JaPatternOpening[k])
  {
    assert ProseOk("### Basic Example") by {}
    assert ProseOk("") by {}
    assert ProseOk("```") by {}
  }

  lemma JaPatternOpeningProse()
    ensures AllProse(JaPatternOpening)
  {
    JaPatternOpeningProse0();
    JaPatternOpeningProse1();
  }

  /** The end of the basic example and the conditions list before the table. */
  const JaPatternWhenToUse: seq<string> := [
    "// 基本的な実装例を追加",
    "```",
    "",
    "### When to Use",
    "",
    "このパターンを使用する場面：",
    "- [特定の条件A]",
    "- [特定の条件B]",
    "- [特定の条件C]"]

  lemma JaPatternWhenToUseProse0()
    ensures forall k | 0 <= k < 5 :: ProseOk(JaPatternWhenToUse[k])
  {
    assert ProseOk("// 基本的な実装例を追加") by {}
    assert ProseOk("```") by {}
    assert ProseOk("") by {}
    assert ProseOk("### When to Use") by {}
    assert ProseOk("") by {}
  }

  lemma JaPatternWhenToUseProse1()
    ensures forall k | 5 <= k < 9 :: ProseOk(JaPatternWhenToUse[k])
  {
    assert ProseOk("このパターンを使用する場面：") by {}
    assert ProseOk("- [特定の条件A]") by {}
    assert ProseOk("- [特定の条件B]") by {}
    assert ProseOk("- [特定の条件C]") by {}
  }

  lemma JaPatternWhenToUseProse()
    ensures AllProse(JaPatternWhenToUse)
  {
    JaPatternWhenToUseProse0();
    JaPatternWhenToUseProse1();
  }

  /** After the table: the opening of the configuration example. */
  const JaPatternConfiguration: seq<string> := [
    "### With " + "Configuration",
    "",
    "```"]

  lemma JaPatternConfigurationProse()
    ensures AllProse(JaPatternConfiguration)
  {
    assert ProseOk("### With " + "Configuration") by {
      ProseCat("### With ", "Configuration");
    }
    assert ProseOk("") by {}
    assert ProseOk("```") by {}
  }

  /** The end of the configuration example and the opening of the advanced one. */
  const JaPatternAdvanced: seq<string> := [
    "// 設定例を追加",
    "```",
    "",
    "### Advanced Pattern",
    "",
    "```"]

  lemma JaPatternAdvancedProse0()
    ensures forall k | 0 <= k < 5 :: ProseOk(JaPatternAdvanced[k])
  {
    assert ProseOk("// 設定例を追加") by {}
    assert ProseOk("```") by {}
    assert ProseOk("") by {}
    assert ProseOk("### Advanced Pattern") by {}
    assert ProseOk("") by {}
  }

  lemma JaPatternAdvancedProse1()
    ensures forall k | 5 <= k < 6 :: ProseOk(JaPatternAdvanced[k])
  {
    assert ProseOk("```") by {}
  }

  lemma JaPatternAdvancedProse()
    ensures AllProse(JaPatternAdvanced)
  {
    JaPatternAdvancedProse0();
    JaPatternAdvancedProse1();
  }

  /** The end of the advanced example and the rule closing the section. */
  const JaPatternClosing: seq<string> := [
    "// 以下を含む高度な実装を追加：",
    "// - エラーハンドリング",
    "// - キャンセルサポート",
    "// - リソース管理",
    "// - ロギング/モニタリング",
    "```",
    "",
    "---",
    ""]

  lemma JaPatternClosingProse0()
    ensures forall k | 0 <= k < 5 :: ProseOk(JaPatternClosing[k])
  {
    assert ProseOk("// 以下を含む高度な実装を追加：") by {}
    assert ProseOk("// - エラーハンドリング") by {}
    assert ProseOk("// - キャンセルサポート") by {}
    assert ProseOk("// - リソース管理") by {}
    assert ProseOk("// - ロギング/モニタリング") by {}
  }

  lemma JaPatternClosingProse1()
    ensures forall k | 5 <= k < 9 :: ProseOk(JaPatternClosing[k])
  {
    assert ProseOk("```") by {}
    assert ProseOk("") by {}
    assert ProseOk("---") by {}
    assert ProseOk("") by {}
  }

  lemma JaPatternClosingProse()
    ensures AllProse(JaPatternClosing)
  {
    JaPatternClosingProse0();
    JaPatternClosingProse1();
  }

  /** Under "Common Pitfalls": the first pitfall and its wrong example. */
  const JaPitfallProblem: seq<string> := [
    "",
    "### 1. [よくある問題名] - " + "簡単な説明",
    "",
    "**問題**: " + "ユーザーが通常行う誤りとその理由。",
    "",
    "```"]

  lemma JaPitfallProblemProse0()
    ensures forall k | 0 <= k < 5 :: ProseOk(JaPitfallProblem[k])
  {
    assert ProseOk("") by {}
    assert ProseOk("### 1. [よくある問題名] - " + "簡単な説明") by {
      ProseCat("### 1. [よくある問題名] - ", "簡単な説明");
    }
    assert ProseOk("") by {}
    assert ProseOk("**問題**: " + "ユーザーが通常行う誤りとその理由。") by {
      ProseCat("**問題**: ", "ユーザーが通常行う誤りとその理由。");
    }
    assert ProseOk("") by {}
  }

  lemma JaPitfallProblemProse1()
    ensures forall k | 5 <= k < 6 :: ProseOk(JaPitfallProblem[k])
  {
    assert ProseOk("```") by {}
  }

  lemma JaPitfallProblemProse()
    ensures AllProse(JaPitfallProblem)
  {
    JaPitfallProblemProse0();
    JaPitfallProblemProse1();
  }

  /** The solution and its correct example. */
  const JaPitfallSolution: seq<string> := [
    "// アンチパターンの例を追加",
    "```",
    "",
    "**解決策**: " + "修正方法とこのアプローチが機能する理由。",
    "",
    "```"]

  lemma JaPitfallSolutionProse0()
    ensures forall k | 0 <= k < 5 :: ProseOk(JaPitfallSolution[k])
  {
    assert ProseOk("// アンチパターンの例を追加") by {}
    assert ProseOk("```") by {}
    assert ProseOk("") by {}
    assert ProseOk("**解決策**: " + "修正方法とこのアプローチが機能する理由。") by {
      ProseCat("**解決策**: ", "修正方法とこのアプローチが機能する理由。");
    }
    assert ProseOk("") by {}
  }

  lemma JaPitfallSolutionProse1()
    ensures forall k | 5 <= k < 6 :: ProseOk(JaPitfallSolution[k])
  {
    assert ProseOk("```") by {}
  }

  lemma JaPitfallSolutionProse()
    ensures AllProse(JaPitfallSolution)
  {
    JaPitfallSolutionProse0();
    JaPitfallSolutionProse1();
  }

  /** A second pitfall placeholder and the closing rule. */
  const JaPitfallMore: seq<string> := [
    "// 正しいパターンの例を追加",
    "```",
    "",
    "### 2. [別のよくある問題名]",
    "",
    "[必要に応じて問題を追加...]",
    "",
    "---",
    ""]

  lemma JaPitfallMoreProse0()
    ensures forall k | 0 <= k < 5 :: ProseOk(JaPitfallMore[k])
  {
    assert ProseOk("// 正しいパターンの例を追加") by {}
    assert ProseOk("```") by {}
    assert ProseOk("") by {}
    assert ProseOk("### 2. [別のよくある問題名]") by {}
    assert ProseOk("") by {}
  }

  lemma JaPitfallMoreProse1()
    ensures forall k | 5 <= k < 9 :: ProseOk(JaPitfallMore[k])
  {
    assert ProseOk("[必要に応じて問題を追加...]") by {}
    assert ProseOk("") by {}
    assert ProseOk("---") by {}
    assert ProseOk("") by {}
  }

  lemma JaPitfallMoreProse()
    ensures AllProse(JaPitfallMore)
  {
    JaPitfallMoreProse0();
    JaPitfallMoreProse1();
  }

  /** Under "Anti-Patterns": the description and its wrong example. */
  const JaAntiPatternWhat: seq<string> := [
    "",
    "### [アンチパターン名]",
    "",
    "**内容**: " + "アーキテクチャレベルでのアンチパターンの説明。",
    "",
    "```"]

  lemma JaAntiPatternWhatProse0()
    ensures forall k | 0 <= k < 5 :: ProseOk(JaAntiPatternWhat[k])
  {
    assert ProseOk("") by {}
    assert ProseOk("### [アンチパターン名]") by {}
    assert ProseOk("") by {}
    assert ProseOk("**内容**: " + "アーキテクチャレベルでのアンチパターンの説明。") by {
      ProseCat("**内容**: ", "アーキテクチャレベルでのアンチパターンの説明。");
    }
    assert ProseOk("") by {}
  }

  lemma JaAntiPatternWhatProse1()
    ensures forall k | 5 <= k < 6 :: ProseOk(JaAntiPatternWhat[k])
  {
    assert ProseOk("```") by {}
  }

  lemma JaAntiPatternWhatProse()
    ensures AllProse(JaAntiPatternWhat)
  {
    JaAntiPatternWhatProse0();
    JaAntiPatternWhatProse1();
  }

  /** Why it is wrong, and the better approach. */
  const JaAntiPatternWhy: seq<string> := [
    "// アンチパターンの例を追加",
    "```",
    "",
    "**なぜ間違っているか**:",
    "- 理由1: [違反の説明]",
    "- 理由2: [問題の説明]",
    "- 理由3: [スケーラビリティの問題]",
    "",
    "**より良いアプローチ**:",
    "",
    "```"]

  lemma JaAntiPatternWhyProse0()
    ensures forall k | 0 <= k < 5 :: ProseOk(JaAntiPatternWhy[k])
  {
    assert ProseOk("// アンチパターンの例を追加") by {}
    assert ProseOk("```") by {}
    assert ProseOk("") by {}
    assert ProseOk("**なぜ間違っているか**:") by {}
    assert ProseOk("- 理由1: [違反の説明]") by {}
  }

  lemma JaAntiPatternWhyProse1()
    ensures forall k | 5 <= k < 10 :: ProseOk(JaAntiPatternWhy[k])
  {
    assert ProseOk("- 理由2: [問題の説明]") by {}
    assert ProseOk("- 理由3: [スケーラビリティの問題]") by {}
    assert ProseOk("") by {}
    assert ProseOk("**より良いアプローチ**:") by {}
    assert ProseOk("") by {}
  }

  lemma JaAntiPatternWhyProse2()
    ensures forall k | 10 <= k < 11 :: ProseOk(JaAntiPatternWhy[k])
  {
    assert ProseOk("```") by {}
  }

  lemma JaAntiPatternWhyProse()
    ensures AllProse(JaAntiPatternWhy)
  {
    JaAntiPatternWhyProse0();
    JaAntiPatternWhyProse1();
    JaAntiPatternWhyProse2();
  }

  /** The end of the better approach and the closing rule. */
  const JaAntiPatternBetter: seq<string> := [
    "// 正しいパターンの例を追加",
    "```",
    "",
    "---",
    ""]

  lemma JaAntiPatternBetterProse()
    ensures AllProse(JaAntiPatternBetter)
  {
    assert ProseOk("// 正しいパターンの例を追加") by {}
    assert ProseOk("```") by {}
    assert ProseOk("") by {}
    assert ProseOk("---") by {}
    assert ProseOk("") by {}
  }

  /** Under "Related Patterns & Further Reading": three lists of placeholders. */
  const JaFurtherReading: seq<string> := [
    "",
    "### 関連する設計パターン",
    "- [パターン1]: " + "簡単な説明と使用時期",
    "- [パターン2]: " + "簡単な説明と使用時期",
    "",
    "### 公式ドキュメント",
    "- [公式ドキュメントへのリンク]",
    "- [関連するAPIリファレンスへのリンク]",
    "",
    "### コミュニティリソース",
    "- [関連するブログ投稿やチュートリアル]",
    "- [GitHubリポジトリや例]",
    "",
    "---",
    ""]

  lemma JaFurtherReadingProse0()
    ensures forall k | 0 <= k < 5 :: ProseOk(JaFurtherReading[k])
  {
    assert ProseOk("") by {}
    assert ProseOk("### 関連する設計パターン") by {}
    assert ProseOk("- [パターン1]: " + "簡単な説明と使用時期") by {
      ProseCat("- [パターン1]: ", "簡単な説明と使用時期");
    }
    assert ProseOk("- [パターン2]: " + "簡単な説明と使用時期") by {
      ProseCat("- [パターン2]: ", "簡単な説明と使用時期");
    }
    assert ProseOk("") by {}
  }

  lemma JaFurtherReadingProse1()
    ensures forall k | 5 <= k < 10 :: ProseOk(JaFurtherReading[k])
  {
    assert ProseOk("### 公式ドキュメント") by {}
    assert ProseOk("- [公式ドキュメントへのリンク]") by {}
    assert ProseOk("- [関連するAPIリファレンスへのリンク]") by {}
    assert ProseOk("") by {}
    assert ProseOk("### コミュニティリソース") by {}
  }

  lemma JaFurtherReadingProse2()
    ensures forall k | 10 <= k < 15 :: ProseOk(JaFurtherReading[k])
  {
    assert ProseOk("- [関連するブログ投稿やチュートリアル]") by {}
    assert ProseOk("- [GitHubリポジトリや例]") by {}
    assert ProseOk("") by {}
    assert ProseOk("---") by {}
    assert ProseOk("") by {}
  }

  lemma JaFurtherReadingProse()
    ensures AllProse(JaFurtherReading)
  {
    JaFurtherReadingProse0();
    JaFurtherReadingProse1();
    JaFurtherReadingProse2();
  }

  /** Under "Changelog": the link to the changelog. */
  const JaChangelogNote: seq<string> := [
    "",
    "バージョン履歴は " + "[CHANGELOG.md]" + "(../CHANGELOG.md) " + "を参照してください。",
    "",
    "---",
    ""]

  lemma JaChangelogNoteProse()
    ensures AllProse(JaChangelogNote)
  {
    assert ProseOk("") by {}
    assert ProseOk("バージョン履歴は " + "[CHANGELOG.md]" + "(../CHANGELOG.md) " + "を参照してください。") by {
      ProseCat("バージョン履歴は ", "[CHANGELOG.md]");
      ProseCat("バージョン履歴は " + "[CHANGELOG.md]", "(../CHANGELOG.md) ");
      ProseCat("バージョン履歴は " + "[CHANGELOG.md]" + "(../CHANGELOG.md) ", "を参照してください。");
    }
    assert ProseOk("") by {}
    assert ProseOk("---") by {}
    assert ProseOk("") by {}
  }

  /** Under "License": the licence sentence, up to the signature lines. */
  const JaLicenseNote: seq<string> := [
    "",
    "このスキルドキュメントは、GitHub " + "Copilotでの使用のために提供されています。",
    "",
    "---",
    ""]

  lemma JaLicenseNoteProse()
    ensures AllProse(JaLicenseNote)
  {
    assert ProseOk("") by {}
    assert ProseOk("このスキルドキュメントは、GitHub " + "Copilotでの使用のために提供されています。") by {
      ProseCat("このスキルドキュメントは、GitHub ", "Copilotでの使用のために提供されています。");
    }
    assert ProseOk("") by {}
    assert ProseOk("---") by {}
    assert ProseOk("") by {}
  }

  // ---------------------------------------------------------------------------
  // The notes after the ✅/❌ example markers
  // ---------------------------------------------------------------------------

  const BasicNote := "Simple, most common " + "case"
  const ConfigurationNote := "With " + "options/configuration"
  const AdvancedNote := "Production-grade " + "with error handling"
  const EnPitfallWrongNote := "What not to do"
  const EnPitfallRightNote := "The right approach"
  const EnAntiPatternWrongNote := "Architectural " + "mistake"
  const EnAntiPatternRightNote := "Recommended " + "architecture"
  const JaPitfallWrongNote := "やってはいけないこと"
  const JaPitfallRightNote := "正しいアプローチ"
  const JaAntiPatternWrongNote := "アーキテクチャ上の誤り"
  const JaAntiPatternRightNote := "推奨されるアーキテクチャ"

  lemma NotesPlain()
    ensures Plain(BasicNote)
         && Plain(ConfigurationNote)
         && Plain(AdvancedNote)
         && Plain(EnPitfallWrongNote)
         && Plain(EnPitfallRightNote)
         && Plain(EnAntiPatternWrongNote)
         && Plain(EnAntiPatternRightNote)
         && Plain(JaPitfallWrongNote)
         && Plain(JaPitfallRightNote)
         && Plain(JaAntiPatternWrongNote)
         && Plain(JaAntiPatternRightNote)
  {
    ExampleNotesPlain();
    EnglishNotesPlain();
    JapaneseNotesPlain();
  }

  lemma ExampleNotesPlain()
    ensures Plain(BasicNote) && Plain(ConfigurationNote) && Plain(AdvancedNote)
  {
    PlainCat("Simple, most common ", "case");
    PlainCat("With ", "options/configuration");
    PlainCat("Production-grade ", "with error handling");
  }

  lemma EnglishNotesPlain()
    ensures Plain(EnPitfallWrongNote) && Plain(EnPitfallRightNote)
         && Plain(EnAntiPatternWrongNote) && Plain(EnAntiPatternRightNote)
  {
    assert Plain("What not to do");
    assert Plain("The right approach");
    PlainCat("Architectural ", "mistake");
    PlainCat("Recommended ", "architecture");
  }

  lemma JapaneseNotesPlain()
    ensures Plain(JaPitfallWrongNote) && Plain(JaPitfallRightNote)
         && Plain(JaAntiPatternWrongNote) && Plain(JaAntiPatternRightNote)
  {
    assert Plain("やってはいけないこと");
    assert Plain("正しいアプローチ");
    assert Plain("アーキテクチャ上の誤り");
    assert Plain("推奨されるアーキテクチャ");
  }
}
