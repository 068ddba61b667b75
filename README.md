# Skill document tooling, modelled in Dafny

The repository ships three command-line scripts that work on *skills*. A skill is a
Markdown file `SKILL.md` with a YAML frontmatter block. A skill may also carry a Japanese
translation in `references/SKILL.ja.md`.

- **Quality validation** (`validate_skill.py`) scores one SKILL.md against a 55-item
  checklist. The items fall into four categories:
  - structure: 10 items;
  - content: 20 items;
  - code quality: 15 items;
  - language: 10 items.

  Each category passes at 80% of its items (8, 16, 12 and 8). The document passes when
  every category passes and the total is at least 85% of 55, that is at least 47 items.
- **Sync check** (`check_sync.py`) parses the English and the Japanese document. It
  compares their frontmatter, H2 titles, `### Pattern N` count, ✅/❌ marker counts and
  tables. It sorts what it finds into issues, warnings and successes, then derives an
  overall status, an exit code and recommendations.
- **Template generator** (`generate_template.py`) checks a skill name, a description,
  tags and a pattern count. It then writes a SKILL.md and its Japanese counterpart with
  one section per pattern.

The model has nine modules, one per file.

| file | models |
|---|---|
| `Text.dfy` | the Python string operations the scripts rely on: `strip`, `lower`, `split`, `join`, `find` and `count` |
| `Validator.dfy` | `SkillValidator`'s helpers: code-fence removal, section counting, frontmatter extraction and section bodies |
| `CheckPatterns.dfy` | the regular expressions of the individual checks, each as a scanner over the text |
| `QualityChecks.dfy` | the four check lists, the loops that compute them, scoring and the overall decision |
| `SyncDocument.dfy` | `SkillDocument`: a class whose parse methods set its fields |
| `SyncChecker.dfy` | `SyncChecker`: a class whose check methods append to its issue, warning and success lists; plus status, exit code and recommendations |
| `Template.dfy`, `TemplateText.dfy` | the generator's validators, tag splitting, the documents it writes (typed lines: prose, headings, table rows, example markers) and the fixed text they contain |
| `TemplateSync.dfy` | what the sync checker reads from documents the generator writes |

## What the code does not do

- **Code fences.** Only `` ^```.*?^``` `` matches are removed: no tilde fences, no longer
  fences, no indented fences. `Validator.StripFences` models exactly that, including an
  unclosed last fence, which keeps everything after it.
- **Section boundaries.** `get_section_content` ends a section at the next `##` plus
  whitespace, even inside a code block. It has no guard against boundary headings.
- **Counts and flags.** No check computes a step count, an H3 count or a decision-table
  flag.
- **The 80% threshold.** The report carries an `overall_threshold` of 80%, but the
  decision uses 85% of the total. `QualityChecks.EightyPercentIsNotEnough` records this.
- **Recommendations read the message text.** `_generate_recommendations` does not know
  which check produced an issue. It tests the message for `tags mismatch` (case ignored),
  then `Pattern count mismatch`, then `name mismatch`, then `author mismatch`, and parses
  tags and counts back out of it. `SyncChecker.IssueRecommendations` models these tests.
  `SyncChecker.IssueRecommendationsAgree` shows they pick the advice of the check that
  raised the issue, for names and tags that do not themselves hold the texts tested for.

Two behaviours of the code are proved as stated.

- **Check 3.4.4 cannot fail.** A code block that mentions `async` is a slice of the
  document, so the document mentions it as well (`QualityChecks.AsyncCheckAlwaysPasses`).
- **The 15-row limit of check 4.3.2 never rejects a table.** `findall` over
  `(\|[^\n]+\|\n)+` returns the last repeated row only, so every "table" splits into two
  pieces (`QualityChecks.TableRowLimitNeverApplies`).

## Model

| member | source | states |
|---|---|---|
| Text.Lower | skills/skill-quality-validation/scripts/validate_skill.py:82 | lower-casing keeps the length and maps each character on its own (ASCII letters to lower case) |
| Text.LStrip | skills/skill-revision-guide/scripts/check_sync.py:75 | the result is a suffix that starts with no whitespace; everything removed is whitespace |
| Text.RStrip | skills/skill-revision-guide/scripts/check_sync.py:75 | the result is a prefix that ends with no whitespace; everything removed is whitespace |
| Text.Find | skills/skill-revision-guide/scripts/check_sync.py:71 | a found index is the first occurrence; no index means the pattern occurs nowhere |
| Text.FindFrom | skills/skill-quality-validation/scripts/validate_skill.py:455 | the first occurrence at or after the start position, or none at any position from there |
| Text.ReplaceChar | skills/skill-template-generator/scripts/generate_template.py:167 | each occurrence of the character is replaced and every other character kept |
| Text.FirstPrefix | skills/skill-quality-validation/scripts/validate_skill.py:648 | the chosen alternative is a prefix of the text; with no choice, no alternative is a prefix |
| Text.Split | skills/skill-quality-validation/scripts/validate_skill.py:78 | `split` yields at least one piece and no piece holds the separator |
| Text.SplitAfterPiece | skills/skill-revision-guide/scripts/check_sync.py:76 | a separator-free piece followed by the separator splits off as the first piece |
| Text.LinesOfUnlines | skills/skill-revision-guide/scripts/check_sync.py:102 | lines written one per newline are read back by `split('\n')`, plus the empty piece after the last newline |
| Text.UnlinesAppend | skills/skill-template-generator/scripts/generate_template.py:200-204 | writing two line lists one after the other writes their concatenation |
| Text.SplitJoin | skills/skill-revision-guide/scripts/check_sync.py:76 | splitting a join gives back the parts when none holds the separator |
| Text.SplitNoSep | skills/skill-revision-guide/scripts/check_sync.py:76 | a text without the separator splits into itself |
| Text.RemoveChar | skills/skill-revision-guide/scripts/check_sync.py:301 | `replace("'", "")`: the character is gone and the text grows no longer |
| Text.RemoveCharAppend | skills/skill-revision-guide/scripts/check_sync.py:301 | removing a character works piece by piece over a concatenation |
| Text.SplitOn | skills/skill-revision-guide/scripts/check_sync.py:301 | `split(', ')` yields at least one piece |
| Text.SplitOnJoin | skills/skill-revision-guide/scripts/check_sync.py:301 | splitting a join on its separator gives back the parts when none holds the separator's first character |
| Validator.CountWhereAppend | skills/skill-quality-validation/scripts/validate_skill.py:84-89 | the count of matching lines adds up over a concatenation |
| Validator.FindLine | skills/skill-quality-validation/scripts/validate_skill.py:88 | the first line from a position on that satisfies the predicate, or none does |
| Validator.StripFencesPlain | skills/skill-quality-validation/scripts/validate_skill.py:88 | without fence lines the substitution changes nothing |
| Validator.StripFencesClosedBlock | skills/skill-quality-validation/scripts/validate_skill.py:88 | a closed block, whatever its body, is replaced by what follows the closing backticks on their line |
| Validator.StripFencesAppend | skills/skill-quality-validation/scripts/validate_skill.py:88 | a prefix with an even number of fence lines is stripped independently of what follows it |
| Validator.StripFencesUnclosed | skills/skill-quality-validation/scripts/validate_skill.py:88 | an opening fence with no closing fence after it removes nothing |
| Validator.FindLineCounted | skills/skill-quality-validation/scripts/validate_skill.py:88 | a line is found whenever the remaining lines contain one |
| Validator.FenceCountAfterPair | skills/skill-quality-validation/scripts/validate_skill.py:88 | removing a closed pair leaves two fence lines fewer |
| Validator.DigitRun | skills/skill-quality-validation/scripts/validate_skill.py:184 | the maximal run of digits at the start of the text |
| Validator.FencedPatternsIgnored | skills/skill-quality-validation/scripts/validate_skill.py:84-89 | the pattern count does not depend on what a closed code block holds |
| Validator.UnclosedFencePatternsCounted | skills/skill-quality-validation/scripts/validate_skill.py:84-89 | after an unclosed last fence every `## Pattern N:` heading counts |
| Validator.FenceLineNotHeading | skills/skill-quality-validation/scripts/validate_skill.py:88-89 | a fence line is never a `##` heading |
| Validator.StripFences | skills/skill-quality-validation/scripts/validate_skill.py:88 | `re.sub(r'^```.*?^```', '', …)` on lines: from an opening fence line to the next fence line, only what follows the closing backticks is kept; an opening fence with no closing fence is kept; never more lines than before (properties: StripFencesPlain, StripFencesClosedBlock, StripFencesAppend, StripFencesUnclosed) |
| Validator.CountSections | skills/skill-quality-validation/scripts/validate_skill.py:84-89 | `count_sections`: the lines of the fence-free text that satisfy the pattern (no contract of its own; properties: FencedPatternsIgnored, UnclosedFencePatternsCounted) |
| Validator.ExtractFrontmatterSpec | skills/skill-quality-validation/scripts/validate_skill.py:91-94 | a frontmatter exists iff line 0 is a `---` line and a later `---` line (not the last) closes it; it is the text between the opening line and the first closing line |
| Validator.ExtractFrontmatter | skills/skill-quality-validation/scripts/validate_skill.py:91-94 | `extract_frontmatter` (no contract of its own; characterised by ExtractFrontmatterSpec) |
| Validator.SectionEnd | skills/skill-quality-validation/scripts/validate_skill.py:96-100 | a section body runs to the next `##`-plus-whitespace line or to the end, with no such line inside |
| Validator.FindHeading | skills/skill-quality-validation/scripts/validate_skill.py:96-100 | the first `##` line whose title starts with the heading (case ignored), or none |
| Validator.SectionContentNone | skills/skill-quality-validation/scripts/validate_skill.py:96-100 | no section body iff no line except the last is a matching heading |
| Validator.SectionContentAt | skills/skill-quality-validation/scripts/validate_skill.py:96-100 | otherwise the body is the stripped text between the first matching heading and the next boundary |
| Validator.SectionContent | skills/skill-quality-validation/scripts/validate_skill.py:96-100 | `get_section_content` (no contract of its own; characterised by SectionContentNone and SectionContentAt) |
| Validator.H3NotBoundary | skills/skill-quality-validation/scripts/validate_skill.py:99 | a `###` line never ends a section |
| CheckPatterns.SpaceRun | skills/skill-quality-validation/scripts/validate_skill.py:130 | the maximal leading whitespace run |
| CheckPatterns.NonStarRun | skills/skill-quality-validation/scripts/validate_skill.py:288 | the maximal leading run without `*` |
| CheckPatterns.UpperRun | skills/skill-quality-validation/scripts/validate_skill.py:689 | the maximal leading run of capital letters |
| CheckPatterns.WordRun | skills/skill-quality-validation/scripts/validate_skill.py:455 | the maximal leading run of `\w` characters |
| CheckPatterns.ValueAfterKey | skills/skill-quality-validation/scripts/validate_skill.py:130 | a captured value is non-empty and holds no quote and no newline |
| CheckPatterns.FieldValueSpec | skills/skill-quality-validation/scripts/validate_skill.py:130 | a found value is the capture at the first position where the pattern matches |
| CheckPatterns.FieldValueNone | skills/skill-quality-validation/scripts/validate_skill.py:130 | no value means the pattern matches at no position |
| CheckPatterns.FieldValue | skills/skill-quality-validation/scripts/validate_skill.py:130 | `re.search(r'name:\s*["\']?([^"\'\n]+)["\']?', …)` for a given key (no contract of its own; characterised by FieldValueSpec and FieldValueNone) |
| CheckPatterns.FieldValueOfFirstLine | skills/skill-quality-validation/scripts/validate_skill.py:129-155 | a frontmatter whose first line is `name value` yields exactly that value |
| CheckPatterns.ValueRunStops | skills/skill-quality-validation/scripts/validate_skill.py:130 | a value stops at the newline after it |
| CheckPatterns.Scenarios | skills/skill-quality-validation/scripts/validate_skill.py:236 | one scenario per bullet line |
| CheckPatterns.VerbBulletsAtMostScenarios | skills/skill-quality-validation/scripts/validate_skill.py:245-255 | the verb scenarios never outnumber the scenarios |
| CheckPatterns.FirstBar | skills/skill-quality-validation/scripts/validate_skill.py:708 | the first `\|` of a line |
| CheckPatterns.RunEnd | skills/skill-quality-validation/scripts/validate_skill.py:708 | a run of table rows ends at the first non-row or before the last line |
| CheckPatterns.TablesFrom | skills/skill-quality-validation/scripts/validate_skill.py:708 | each table match is a single newline-terminated row |
| CheckPatterns.CodeBlocksFrom | skills/skill-quality-validation/scripts/validate_skill.py:455 | every code block body is a slice of the document |
| CheckPatterns.TermsPresent | skills/skill-quality-validation/scripts/validate_skill.py:505 | no more terms are present than are listed |
| QualityChecks.OrElse | skills/skill-quality-validation/scripts/validate_skill.py:283-285 | Python's `a or b`: a missing or empty text gives the fallback |
| QualityChecks.StructureChecks | skills/skill-quality-validation/scripts/validate_skill.py:106-219 | ten checks; check 1.7 passes iff 7 to 10 pattern sections survive fence removal |
| QualityChecks.ContentChecks | skills/skill-quality-validation/scripts/validate_skill.py:227-447 | twenty checks, sections 2.1 to 2.6 |
| QualityChecks.NoScenarios | skills/skill-quality-validation/scripts/validate_skill.py:245-270 | without scenarios 2.1.2 fails and 2.1.3 passes |
| QualityChecks.CodeChecks | skills/skill-quality-validation/scripts/validate_skill.py:451-610 | fifteen checks, 3.4.4 at position 14 |
| QualityChecks.AsyncCheckAlwaysPasses | skills/skill-quality-validation/scripts/validate_skill.py:588-597 | check 3.4.4 passes on every document |
| QualityChecks.LanguageChecks | skills/skill-quality-validation/scripts/validate_skill.py:614-733 | ten checks |
| QualityChecks.TableRowLimitNeverApplies | skills/skill-quality-validation/scripts/validate_skill.py:707-722 | every table match splits into two pieces, so check 4.3.2 depends on column counts only |
| QualityChecks.CheckScenarioLengths | skills/skill-quality-validation/scripts/validate_skill.py:257-270 | the early-exit loop returns true iff every scenario is short enough |
| QualityChecks.CheckTables | skills/skill-quality-validation/scripts/validate_skill.py:707-722 | the early-exit loop returns true iff every table is readable |
| QualityChecks.CheckWhenToUse | skills/skill-quality-validation/scripts/validate_skill.py:230-285 | the loop computes the four checks of 2.1 that `WhenToUseChecks` defines |
| QualityChecks.ValidateContent | skills/skill-quality-validation/scripts/validate_skill.py:227-447 | the appended checks are the twenty content checks |
| QualityChecks.ValidateLanguage | skills/skill-quality-validation/scripts/validate_skill.py:614-733 | the appended checks are the ten language checks |
| QualityChecks.CountPassed | skills/skill-quality-validation/scripts/validate_skill.py:756 | a score never exceeds the number of checks |
| QualityChecks.Score | skills/skill-quality-validation/scripts/validate_skill.py:756 | the counting loop yields the number of passed checks |
| QualityChecks.ValidateSkillFile | skills/skill-quality-validation/scripts/validate_skill.py:736-819 | four categories in order, holding the four check lists, scored and decided |
| QualityChecks.Decide | skills/skill-quality-validation/scripts/validate_skill.py:752-819 | scores are passed-check counts; categories pass at 8/16/12/8; overall passes iff total >= 47 and every category passes |
| QualityChecks.Rate | skills/skill-quality-validation/scripts/validate_skill.py:756-764 | one category: score = passed checks, passed iff score reaches the mark |
| QualityChecks.EightyPercentIsNotEnough | skills/skill-quality-validation/scripts/validate_skill.py:69 | 46/55 is above the 80% threshold the report shows, yet does not pass |
| SyncDocument.FrontmatterBlockOf | skills/skill-revision-guide/scripts/check_sync.py:53-55 | `---`, a block free of `\n---`, then `\n---` gives that block |
| SyncDocument.FrontmatterNeedsOpening | skills/skill-revision-guide/scripts/check_sync.py:53-54 | no opening `---` line, no frontmatter |
| SyncDocument.FrontmatterBlock | skills/skill-revision-guide/scripts/check_sync.py:53-55 | `re.search(r'^---\n(.*?)\n---', …)` (no contract of its own; characterised by FrontmatterBlockOf and FrontmatterNeedsOpening) |
| SyncDocument.FrontmatterOf | skills/skill-revision-guide/scripts/check_sync.py:51-78 | the name, description, author and tags `_parse_frontmatter` reads (no contract of its own; generated documents: TemplateSync.FrontmatterReadBack) |
| SyncDocument.FieldIsFirstMatch | skills/skill-revision-guide/scripts/check_sync.py:58-68 | the first matching line gives the field |
| SyncDocument.FieldAbsent | skills/skill-revision-guide/scripts/check_sync.py:58-68 | a key on no line leaves the field unset |
| SyncDocument.Field | skills/skill-revision-guide/scripts/check_sync.py:58-68 | `re.search(r'^key:\s*(.+)$', …, re.MULTILINE)` (no contract of its own; characterised by FieldIsFirstMatch and FieldAbsent) |
| SyncDocument.Merge | skills/skill-revision-guide/scripts/check_sync.py:57-78 | found keys overwrite; other keys keep their value |
| SyncDocument.MergeIntoEmpty | skills/skill-revision-guide/scripts/check_sync.py:33 | merged into the empty dict, the found keys are the result |
| SyncDocument.Spaced | skills/skill-revision-guide/scripts/check_sync.py:76 | each tag after the first is read with its leading space |
| SyncDocument.SplitJoinedTags | skills/skill-revision-guide/scripts/check_sync.py:76 | a `", "`-joined list splits into its first tag and the spaced rest |
| SyncDocument.StripPlain | skills/skill-revision-guide/scripts/check_sync.py:75 | stripping a padded plain tag gives the tag |
| SyncDocument.CleanPlainTag | skills/skill-revision-guide/scripts/check_sync.py:75-77 | a plain tag is kept and cleaned to itself |
| SyncDocument.CleanSpacedTags | skills/skill-revision-guide/scripts/check_sync.py:74-78 | cleaning spaced plain tags gives the tags |
| SyncDocument.TagListOfJoin | skills/skill-revision-guide/scripts/check_sync.py:71-78 | round trip: `a, b, c` is read back as the list of tags |
| SyncDocument.BlankPartsDropped | skills/skill-revision-guide/scripts/check_sync.py:77 | one tag per part that is not blank |
| SyncDocument.TagList | skills/skill-revision-guide/scripts/check_sync.py:74-78 | the cleaned tag list of the bracket text (no contract of its own; round trip: TagListOfJoin) |
| SyncDocument.WithoutFrontmatterOf | skills/skill-revision-guide/scripts/check_sync.py:83 | removing the frontmatter leaves exactly the body |
| SyncDocument.WithoutFrontmatter | skills/skill-revision-guide/scripts/check_sync.py:83 | `re.sub(r'^---\n.*?\n---\n', '', …)` never lengthens the text (exact result: WithoutFrontmatterOf) |
| SyncDocument.Sections | skills/skill-revision-guide/scripts/check_sync.py:80-87 | the H2 titles after the frontmatter (no contract of its own; properties: H2Titles, H2TitlesAppend, H3LineIgnored) |
| SyncDocument.H2Titles | skills/skill-revision-guide/scripts/check_sync.py:86-87 | one title per `##` heading line |
| SyncDocument.H2TitlesAppend | skills/skill-revision-guide/scripts/check_sync.py:86-87 | titles add up over concatenated lines |
| SyncDocument.H3LineIgnored | skills/skill-revision-guide/scripts/check_sync.py:86 | a `###` line adds no title |
| SyncDocument.PatternMarkEnd | skills/skill-revision-guide/scripts/check_sync.py:91 | a match ends after where it starts, within the text |
| SyncDocument.NoMarksWithoutTripleHash | skills/skill-revision-guide/scripts/check_sync.py:91 | no `###`, no match |
| SyncDocument.H2PatternsNotCounted | skills/skill-revision-guide/scripts/check_sync.py:89-92 | a text without `###` counts no pattern |
| SyncDocument.H3PatternCounted | skills/skill-revision-guide/scripts/check_sync.py:91 | `### Pattern N`, in any case, counts once |
| SyncDocument.PatternCount | skills/skill-revision-guide/scripts/check_sync.py:89-92 | `len(re.findall(r'###\s+Pattern\s+\d+', …, re.IGNORECASE))` (no contract of its own; properties: H2PatternsNotCounted, H3PatternCounted) |
| SyncDocument.Runs | skills/skill-revision-guide/scripts/check_sync.py:99-120 | a document that ends in a table line has a table |
| SyncDocument.RunsNonEmpty | skills/skill-revision-guide/scripts/check_sync.py:109-120 | every table has a line |
| SyncDocument.RunsPartition | skills/skill-revision-guide/scripts/check_sync.py:99-120 | the tables, read one after another, are exactly the table lines |
| SyncDocument.RunCountIsStartCount | skills/skill-revision-guide/scripts/check_sync.py:108-117 | one table per table line that follows a non-table line |
| SyncDocument.RunsStep | skills/skill-revision-guide/scripts/check_sync.py:106-117 | one line more: a non-table line closes, a table line extends or opens |
| SyncDocument.RunStartsAppend | skills/skill-revision-guide/scripts/check_sync.py:106-120 | tables never span a non-table line |
| SyncDocument.ParseTableRuns | skills/skill-revision-guide/scripts/check_sync.py:99-120 | the `in_table` loop yields the maximal runs of table lines |
| SyncDocument.TableGroups | skills/skill-revision-guide/scripts/check_sync.py:99-120 | the maximal runs of `\|`-framed lines (no contract of its own; properties: RunsNonEmpty, RunsPartition, RunCountIsStartCount) |
| SyncDocument.SkillDocument.constructor | skills/skill-revision-guide/scripts/check_sync.py:27-38 | an existing file's fields are parsed from its text; otherwise they stay empty |
| SyncDocument.SkillDocument.Parse | skills/skill-revision-guide/scripts/check_sync.py:40-49 | the five parse steps set every field from the content |
| SyncDocument.SkillDocument.ParseFrontmatter | skills/skill-revision-guide/scripts/check_sync.py:51-78 | the found fields are merged into the dict |
| SyncDocument.SkillDocument.ParseSections | skills/skill-revision-guide/scripts/check_sync.py:80-87 | the sections are the H2 titles after the frontmatter |
| SyncDocument.SkillDocument.CountPatterns | skills/skill-revision-guide/scripts/check_sync.py:89-92 | the pattern count of the content |
| SyncDocument.SkillDocument.CountExamples | skills/skill-revision-guide/scripts/check_sync.py:94-97 | the numbers of ✅ and ❌ |
| SyncDocument.SkillDocument.ParseTables | skills/skill-revision-guide/scripts/check_sync.py:99-120 | the tables of the content are appended |
| SyncChecker.NatToString | skills/skill-revision-guide/scripts/check_sync.py:253 | a number prints as a non-empty digit string |
| SyncChecker.DigitsValueOfNatToString | skills/skill-revision-guide/scripts/check_sync.py:306-310 | a printed number reads back as itself |
| SyncChecker.NumberAfterPrinted | skills/skill-revision-guide/scripts/check_sync.py:306-307 | `EN=(\d+)` finds the number printed after the key |
| SyncChecker.NumberAfter | skills/skill-revision-guide/scripts/check_sync.py:306-307 | `re.search(r'EN=(\d+)', …)`: the digits after the first occurrence of the key that is followed by a digit (no contract of its own; NumberAfterPrinted reads a printed count back) |
| SyncChecker.OnlyAppend | skills/skill-revision-guide/scripts/check_sync.py:127-137 | a severity's list adds up over concatenated findings |
| SyncChecker.Missing | skills/skill-revision-guide/scripts/check_sync.py:217 | the missing tags are the set difference |
| SyncChecker.TitleDifferences | skills/skill-revision-guide/scripts/check_sync.py:241-243 | at most one warning per compared pair |
| SyncChecker.SameSectionsOneSuccess | skills/skill-revision-guide/scripts/check_sync.py:233-234 | equal title lists give one success only |
| SyncChecker.TitleDifferencesAreWarnings | skills/skill-revision-guide/scripts/check_sync.py:241-243 | the zip loop gives warnings only, one per differing position |
| SyncChecker.DifferentSections | skills/skill-revision-guide/scripts/check_sync.py:235-243 | one issue iff the counts differ, plus one warning per differing position |
| SyncChecker.ReorderedSectionsOnlyWarn | skills/skill-revision-guide/scripts/check_sync.py:237-243 | same count but different titles: warnings and no issue |
| SyncChecker.DescriptionSeverity | skills/skill-revision-guide/scripts/check_sync.py:186-199 | success iff within 20%; otherwise an issue iff `--strict` |
| SyncChecker.FrontmatterFindings | skills/skill-revision-guide/scripts/check_sync.py:174-226 | `_check_frontmatter`: name, description, author, tags in that order (no contract of its own; properties: DescriptionSeverity, FrontmatterIssues, Missing) |
| SyncChecker.SectionFindings | skills/skill-revision-guide/scripts/check_sync.py:228-243 | `_check_sections` (no contract of its own; properties: SameSectionsOneSuccess, DifferentSections, ReorderedSectionsOnlyWarn) |
| SyncChecker.PatternFindings | skills/skill-revision-guide/scripts/check_sync.py:245-253 | `_check_patterns` (no contract of its own; property: PatternMismatchIsIssue) |
| SyncChecker.ExampleFindings | skills/skill-revision-guide/scripts/check_sync.py:255-271 | `_check_examples`, a difference of two markers still matching (no contract of its own; property: ExamplesAndTablesNeverIssues) |
| SyncChecker.TableFindings | skills/skill-revision-guide/scripts/check_sync.py:273-281 | `_check_tables` (no contract of its own; property: ExamplesAndTablesNeverIssues) |
| SyncChecker.AllFindings | skills/skill-revision-guide/scripts/check_sync.py:153-157 | the five checks in the order `check()` runs them (no contract of its own; SyncChecker.Check ties the class to it) |
| SyncChecker.OnlyEmpty | skills/skill-revision-guide/scripts/check_sync.py:285-290 | a list has no finding of a severity iff no entry has it |
| SyncChecker.FrontmatterIssues | skills/skill-revision-guide/scripts/check_sync.py:174-226 | no issue iff name, author and tag set agree and the description is close or the check is lenient |
| SyncChecker.ExamplesAndTablesNeverIssues | skills/skill-revision-guide/scripts/check_sync.py:255-281 | marker and table differences are never issues |
| SyncChecker.PatternMismatchIsIssue | skills/skill-revision-guide/scripts/check_sync.py:245-253 | a pattern-count difference is exactly one issue |
| SyncChecker.StatusOf | skills/skill-revision-guide/scripts/check_sync.py:283-290 | a checked pair never has the error status |
| SyncChecker.ExitCode | skills/skill-revision-guide/scripts/check_sync.py:468-476 | the ladder at the end of `main` picks 0, 1 or 2 |
| SyncChecker.ExitCodeMeaning | skills/skill-revision-guide/scripts/check_sync.py:468-476 | the ladder gives 2 iff a file is missing; 0 iff no issue (and, with `--strict`, no warning); 1 otherwise |
| SyncChecker.MainExit | skills/skill-revision-guide/scripts/check_sync.py:450-476 | `main` as written exits 0, 1 or 2: 1 for a path that is no directory, 1 for an ERROR result under `--json` (the JSON report fails first), the ladder otherwise (properties: JsonErrorExitsOne, IntendedMainExitMeaning) |
| SyncChecker.JsonErrorExitsOne | skills/skill-revision-guide/scripts/check_sync.py:396-401 | as written, `main` under `--json` never exits 2; a missing file exits 1 where the ladder would give 2 |
| SyncChecker.IntendedMainExit | skills/skill-revision-guide/scripts/check_sync.py:463-476 | `main` as intended: the report in either format, then the ladder (no contract beyond the 0..2 range; property: IntendedMainExitMeaning) |
| SyncChecker.IntendedMainExitMeaning | skills/skill-revision-guide/scripts/check_sync.py:463-476 | as intended, 2 iff a file is missing and 0 iff nothing needs fixing, in both formats; it differs from `main` as written exactly on an ERROR result under `--json` |
| SyncChecker.Repr | skills/skill-revision-guide/scripts/check_sync.py:222 | `repr` of a tag: the tag inside two quote characters, double ones when it holds `'` and no `"` |
| SyncChecker.AddTagRecommendations | skills/skill-revision-guide/scripts/check_sync.py:302-303 | one recommendation per missing tag |
| SyncChecker.PatternMessageRoundTrip | skills/skill-revision-guide/scripts/check_sync.py:253-310 | the counts in the mismatch message are the counts read back |
| SyncChecker.PatternIssueRecommendation | skills/skill-revision-guide/scripts/check_sync.py:296-314 | the pattern issue's message passes the tags test, is read back to its two counts, and recommends adding the difference when EN>JA, removing it otherwise |
| SyncChecker.IssueRecommendations | skills/skill-revision-guide/scripts/check_sync.py:296-317 | the four message tests of `_generate_recommendations`, in order (no contract of its own; properties: the lemmas below) |
| SyncChecker.WarningRecommendations | skills/skill-revision-guide/scripts/check_sync.py:319-327 | a marker warning asks to review the marker it names (no contract of its own; property: ExampleWarningRecommendations) |
| SyncChecker.MissingGroupRead | skills/skill-revision-guide/scripts/check_sync.py:298-301 | `Missing in JA: \[(.*?)\]` captures exactly the bracket text of a message that starts with `tags mismatch: Missing in JA: [` |
| SyncChecker.UnquotedJoin | skills/skill-revision-guide/scripts/check_sync.py:301 | removing `'` from the joined reprs of tags without `'` gives the tags joined by `, ` |
| SyncChecker.TagsIssueRecommendation | skills/skill-revision-guide/scripts/check_sync.py:296-303 | a tags issue with plain missing tags recommends adding exactly those tags, one recommendation each, in order |
| SyncChecker.ExtraTagsRecommendNothing | skills/skill-revision-guide/scripts/check_sync.py:296-303 | a tags issue with extra tags only (no `:` in them) recommends nothing |
| SyncChecker.NameIssueRecommendation | skills/skill-revision-guide/scripts/check_sync.py:296-314 | a name issue whose names hold neither earlier test text recommends checking the name field |
| SyncChecker.AuthorIssueRecommendation | skills/skill-revision-guide/scripts/check_sync.py:296-317 | an author issue whose names hold no earlier test text recommends checking the author field |
| SyncChecker.DescriptionIssueRecommendsNothing | skills/skill-revision-guide/scripts/check_sync.py:296-317 | a description issue (under `--strict`) recommends nothing |
| SyncChecker.SectionIssueRecommendsNothing | skills/skill-revision-guide/scripts/check_sync.py:296-317 | a section-count issue recommends nothing |
| SyncChecker.IssueRecommendationsAgree | skills/skill-revision-guide/scripts/check_sync.py:296-317 | for every issue whose names and tags keep clear of the tested texts, reading the message gives the advice of the check that raised it |
| SyncChecker.AllIssueRecommendationsAgree | skills/skill-revision-guide/scripts/check_sync.py:296-317 | over a whole issue list of such issues, the message-driven recommendations are the check-driven ones, in order |
| SyncChecker.NameWithTagsText | skills/skill-revision-guide/scripts/check_sync.py:296-303 | a name issue whose EN name holds `tags mismatch` (any case) and no `Missing in JA:` takes the tags branch and recommends nothing |
| SyncChecker.NameReadAsTags | skills/skill-revision-guide/scripts/check_sync.py:296-314 | name `Tags Mismatch Helper` against `X`: no recommendation, where the name advice was meant |
| SyncChecker.ApostropheTagRecommendation | skills/skill-revision-guide/scripts/check_sync.py:299-303 | a missing tag with `'` and no `"` is printed in double quotes, so the recommendation carries the tag without its apostrophes and inside `"` |
| SyncChecker.ApostropheTagMisread | skills/skill-revision-guide/scripts/check_sync.py:299-303 | a missing tag holding `'` and no `"` is never recommended under its own name: the message-driven advice differs from the advice for the tag itself |
| SyncChecker.ApostropheRemoved | skills/skill-revision-guide/scripts/check_sync.py:301 | for the tag `don't` the name that reaches the recommendation is `"dont"` |
| SyncChecker.ExampleWarningRecommendations | skills/skill-revision-guide/scripts/check_sync.py:322-327 | each marker warning recommends reviewing its own marker |
| SyncChecker.SyncChecker.constructor | skills/skill-revision-guide/scripts/check_sync.py:130-137 | the lists start empty |
| SyncChecker.SyncChecker.Add | skills/skill-revision-guide/scripts/check_sync.py:181 | one finding is appended to the list of its severity |
| SyncChecker.SyncChecker.AppendedTwice | skills/skill-revision-guide/scripts/check_sync.py:139-167 | appending twice is appending the concatenation |
| SyncChecker.SyncChecker.IsSystemSkill | skills/skill-revision-guide/scripts/check_sync.py:169-172 | whether the English frontmatter's author, or the empty text when there is none, is `RyoMurakami1983` (no contract of its own; SyncChecker.SyncChecker.Check returns it as the system-skill flag) |
| SyncChecker.SyncChecker.CheckFrontmatter | skills/skill-revision-guide/scripts/check_sync.py:174-226 | appends the four frontmatter findings |
| SyncChecker.SyncChecker.CheckSections | skills/skill-revision-guide/scripts/check_sync.py:228-243 | appends the section findings |
| SyncChecker.SyncChecker.CompareTitles | skills/skill-revision-guide/scripts/check_sync.py:241-243 | the zip loop appends the title differences |
| SyncChecker.SyncChecker.CheckPatterns | skills/skill-revision-guide/scripts/check_sync.py:245-253 | appends the pattern finding |
| SyncChecker.SyncChecker.CheckExamples | skills/skill-revision-guide/scripts/check_sync.py:255-271 | appends the two marker findings |
| SyncChecker.SyncChecker.CheckTables | skills/skill-revision-guide/scripts/check_sync.py:273-281 | appends the table finding |
| SyncChecker.IssueAdvice | skills/skill-revision-guide/scripts/check_sync.py:296-317 | the loop over the issues yields the message-driven recommendations of every issue, in order |
| SyncChecker.WarningAdvice | skills/skill-revision-guide/scripts/check_sync.py:319-327 | the loop over the warnings yields the marker recommendations of every warning, in order |
| SyncChecker.SyncChecker.GenerateRecommendations | skills/skill-revision-guide/scripts/check_sync.py:292-329 | the message-driven recommendations of the issues in order, then those of the warnings |
| SyncChecker.SyncChecker.Check | skills/skill-revision-guide/scripts/check_sync.py:139-167 | a missing file is an error and changes nothing; otherwise the lists hold all findings, and the status and the message-driven recommendations are computed from them |
| Template.KebabIff | skills/skill-template-generator/scripts/generate_template.py:94-99 | the pattern's reading equals lower-case runs joined by single hyphens |
| Template.ValidNames | skills/skill-template-generator/scripts/generate_template.py:94-99 | a name is valid iff it is kebab case of 1 to 64 characters |
| Template.ValidateSkillName | skills/skill-template-generator/scripts/generate_template.py:94-99 | `validate_skill_name` (no contract of its own; characterised by KebabIff, ValidNames and FinalNewlineAccepted) |
| Template.ValidateDescription | skills/skill-template-generator/scripts/generate_template.py:101-103 | `validate_description`: 1 to 100 characters (no contract of its own) |
| Template.FinalNewlineAccepted | skills/skill-template-generator/scripts/generate_template.py:96-98 | `$` also accepts a kebab name followed by one newline |
| Template.StripShape | skills/skill-template-generator/scripts/generate_template.py:66-70 | a stripped text has no whitespace at either end |
| Template.KeptTags | skills/skill-template-generator/scripts/generate_template.py:66-70 | every kept tag is non-empty, stripped and free of commas |
| Template.SplitTagsAreTags | skills/skill-template-generator/scripts/generate_template.py:63-71 | every tag the prompt keeps is a proper tag |
| Template.SplitTagsCount | skills/skill-template-generator/scripts/generate_template.py:66-70 | one tag per non-blank part |
| Template.SplitTagsOfJoin | skills/skill-template-generator/scripts/generate_template.py:63-71 | tags typed comma-separated come back as typed |
| Template.TagsAccepted | skills/skill-template-generator/scripts/generate_template.py:66 | `len(self.tags) >= 1`, which ends the tag prompt (no contract of its own; SplitTagsCount gives the count it tests) |
| Template.PatternCountAccepted | skills/skill-template-generator/scripts/generate_template.py:77 | `1 <= self.pattern_count <= 20`, which ends the pattern-count prompt (no contract of its own) |
| Template.SplitTags | skills/skill-template-generator/scripts/generate_template.py:63-71 | the tag list comprehension (no contract of its own; properties: KeptTags, SplitTagsAreTags, SplitTagsCount, SplitTagsOfJoin) |
| Template.TitleCase | skills/skill-template-generator/scripts/generate_template.py:167 | `title()` keeps the length |
| Template.TitleCaseLower | skills/skill-template-generator/scripts/generate_template.py:167 | title casing changes case only |
| Template.TitleCaseIdempotent | skills/skill-template-generator/scripts/generate_template.py:167 | title casing twice is title casing once |
| Template.DisplayNameLower | skills/skill-template-generator/scripts/generate_template.py:167 | the heading is the name with spaces for hyphens, up to case |
| Template.DisplayNameCapitals | skills/skill-template-generator/scripts/generate_template.py:167 | each word of the heading starts upper case |
| Template.DisplayName | skills/skill-template-generator/scripts/generate_template.py:167 | `name.replace('-', ' ').title()` (no contract of its own; properties: DisplayNameLower, DisplayNameCapitals) |
| Template.RenderAppend | skills/skill-template-generator/scripts/generate_template.py:200-204 | `content +=` appends the text of the pieces |
| Template.MeasureAppend | skills/skill-template-generator/scripts/generate_template.py:200-204 | titles, tables and markers add up over concatenation |
| Template.GenerateSkillMd | skills/skill-template-generator/scripts/generate_template.py:155-286 | the built text renders the English document as written, with the placeholder signature |
| Template.GenerateSkillJaMd | skills/skill-template-generator/scripts/generate_template.py:338-471 | the built text renders the Japanese document as written, with the placeholder signature |
| Template.PatternMeasure | skills/skill-template-generator/scripts/generate_template.py:288-336 | a pattern section has one title, one table and three ✅ examples |
| Template.PatternWellFormed | skills/skill-template-generator/scripts/generate_template.py:288-336 | every line of a pattern section is what its piece says (prose, heading, row or marker) |
| Template.Pattern | skills/skill-template-generator/scripts/generate_template.py:288-336 | `generate_pattern_section(i)`, and its Japanese twin at lines 473-521 (no contract of its own; properties: PatternMeasure, PatternWellFormed, SeeAlsoCycle) |
| Template.PatternsMeasure | skills/skill-template-generator/scripts/generate_template.py:200-201 | `n` sections give `n` titles in order, `n` tables and `3n` ✅ examples |
| Template.FooterMeasure | skills/skill-template-generator/scripts/generate_template.py:204-284 | the footer has its five titles, two ✅ and two ❌ |
| Template.DocumentMeasure | skills/skill-template-generator/scripts/generate_template.py:155-286 | head titles, pattern titles and footer titles in order; `n` tables; `3n+2` ✅; two ❌ |
| Template.Document | skills/skill-template-generator/scripts/generate_template.py:155-286 | head, `n` pattern sections and footer, in order (no contract of its own; properties: DocumentMeasure, DocumentWellFormed, DocumentEndsWithSignature) |
| Template.AsWritten | skills/skill-template-generator/scripts/generate_template.py:204-284 | the document with the literal placeholders in its signature (no contract of its own; AsWrittenSignature) |
| Template.Intended | skills/skill-template-generator/scripts/generate_template.py:164 | the document signed by `AUTHOR` and a date (no contract of its own; IntendedSignature) |
| Template.DocumentWellFormed | skills/skill-template-generator/scripts/generate_template.py:155-286 | every line is what its piece says (prose, heading, row or marker) for plain inputs |
| Template.SeeAlsoCycle | skills/skill-template-generator/scripts/generate_template.py:314 | "See Pattern" references stay in 1..n, are pairwise distinct, wrap from n to 1 and never self-refer when n >= 2 |
| Template.DocumentEndsWithSignature | skills/skill-template-generator/scripts/generate_template.py:280-284 | a document ends with its signature lines |
| Template.AsWrittenSignature | skills/skill-template-generator/scripts/generate_template.py:282-283 | as written, the signature carries the placeholder texts |
| Template.IntendedSignature | skills/skill-template-generator/scripts/generate_template.py:164 | as intended, the signature names the author and the date |
| TemplateSync.PlainLinesCount | skills/skill-revision-guide/scripts/check_sync.py:94-97 | lines without marks give a text without marks |
| TemplateSync.HeadingTitle | skills/skill-revision-guide/scripts/check_sync.py:86-87 | `## title` is read as `title` |
| TemplateSync.OneMark | skills/skill-revision-guide/scripts/check_sync.py:96-97 | a line with one mark counts it once and the other mark zero times |
| TemplateSync.TableReadBack | skills/skill-revision-guide/scripts/check_sync.py:99-120 | rows framed by blank lines read as one table |
| TemplateSync.PieceReadBack | skills/skill-revision-guide/scripts/check_sync.py:86-120 | each piece reads back as its tally |
| TemplateSync.ReadsAsAppend | skills/skill-revision-guide/scripts/check_sync.py:86-120 | readings add up over concatenated lines |
| TemplateSync.DocReadBack | skills/skill-template-generator/scripts/generate_template.py:155-286 | a well-formed document's lines read as its tally |
| TemplateSync.TextReadBack | skills/skill-revision-guide/scripts/check_sync.py:86-120 | the rendered text has the document's H2 titles, tables and marker counts |
| TemplateSync.JoinNoClosing | skills/skill-revision-guide/scripts/check_sync.py:53 | generated field lines hold no `\n---` |
| TemplateSync.FieldLineReadBack | skills/skill-revision-guide/scripts/check_sync.py:58-68 | `key: value` is read back as `value` |
| TemplateSync.TagsLineReadBack | skills/skill-revision-guide/scripts/check_sync.py:71-73 | `tags: [a, b]` is read back as the text in brackets |
| TemplateSync.FieldsReadBack | skills/skill-template-generator/scripts/generate_template.py:159-164 | the written fields are read back under their keys |
| TemplateSync.FrontmatterReadBack | skills/skill-revision-guide/scripts/check_sync.py:51-78 | a generated document's frontmatter is the name, description, author and tags given |
| TemplateSync.AcceptedNamePlain | skills/skill-template-generator/scripts/generate_template.py:49-53 | a name the prompt accepts holds no line break and no ✅/❌ |
| TemplateSync.FrontmatterOfBlock | skills/skill-revision-guide/scripts/check_sync.py:51-56 | for any one-line answers, the frontmatter read from a generated document is that of its frontmatter block alone |
| TemplateSync.SectionsReadBack | skills/skill-revision-guide/scripts/check_sync.py:80-87 | for any one-line answers, a generated document's sections are its H2 titles in order |
| TemplateSync.FrontLinesQuiet | skills/skill-template-generator/scripts/generate_template.py:159-167 | for any one-line answers, no frontmatter or title line is read as a heading or a table line |
| TemplateSync.FrontedReadBack | skills/skill-revision-guide/scripts/check_sync.py:86-120 | lines read as no heading and no table, followed by well-formed pieces, read as the pieces' titles and tables plus the lines' marks |
| TemplateSync.FrontMarks | skills/skill-template-generator/scripts/generate_template.py:159-164 | the ✅/❌ in the frontmatter and title lines are exactly those typed into the description and the tags |
| TemplateSync.RestWellFormed | skills/skill-template-generator/scripts/generate_template.py:155-286 | whatever the answers, every piece after the frontmatter is well formed |
| TemplateSync.GeneratedShape | skills/skill-revision-guide/scripts/check_sync.py:24-120 | for any one-line answers: frontmatter of the block alone, the head, pattern and footer titles in order, `n` tables, `3n+2` ✅ and two ❌ besides those typed into the description and tags |
| TemplateSync.GeneratedView | skills/skill-revision-guide/scripts/check_sync.py:24-120 | for readable answers check_sync reads a generated document as built: the frontmatter given, the titles, `n` tables, `3n+2` ✅ and two ❌ besides those typed into the description and tags |
| TemplateSync.TextView | skills/skill-revision-guide/scripts/check_sync.py:24-120 | what `SkillDocument` parses from a text (no contract of its own; GeneratedView reads it for generated documents) |
| TemplateSync.SameShapeFindings | skills/skill-revision-guide/scripts/check_sync.py:139-281 | documents equal except for titles: issues only from pattern counts, one warning per differing title |
| TemplateSync.DifferingRange | skills/skill-revision-guide/scripts/check_sync.py:241-243 | titles differing exactly on a range differ that many times |
| TemplateSync.TitlesDiffer | skills/skill-template-generator/scripts/generate_template.py:288-336 | two languages' title lists differ exactly at the pattern titles |
| TemplateSync.WordedPairFindings | skills/skill-revision-guide/scripts/check_sync.py:139-167 | two wordings of one set of one-line answers: no issue but the pattern count, `n` warnings |
| TemplateSync.GeneratedPairFindings | skills/skill-template-generator/scripts/generate_template.py:155-471 | for any answers typed on one line, the English/Japanese pair as the generator writes it: no issue but the pattern count, one warning per pattern |

## Left out

- Terminal I/O is not modelled: the prompts and the loops that ask again after a rejected answer (`collect_input`, `confirm_settings`, `print_header`, `print_success`). The model keeps the acceptance predicates (`ValidateSkillName`, `ValidateDescription`, `TagsAccepted`, `PatternCountAccepted`) that end those loops.
- File handling is not modelled: reading, existence checks, `mkdir` and writing. A document's text and whether it exists are parameters.
- `generate_changelog` is not modelled. It writes a separate file the other two scripts never read.
- Report printing is not modelled: `format_text_report`, `format_json_report`, `print_text_report` and `print_json_report`.
- The argument parsing of `main` is not modelled. Its exit status is `SyncChecker.MainExit`: the directory checks, the report, and the ladder that maps the status to an exit code.
- The document builders never call `datetime.now()`: their footers hold the literal placeholder texts (see Findings). Only `generate_changelog`, left out above, reads the clock.
- The interactive choice of the English or Japanese output is not modelled: both builders are modelled and the caller picks.
- `lower()`, `title()`, `re.IGNORECASE`, `\w`, `\b` and `\d` act on ASCII characters only; other code points are left as they are (Python's `\d` also matches other Unicode digits, such as `３`).
- Python's whitespace set is modelled exactly. `\s` in a pattern is never taken to cross a line break.
- The float ratios of the checks are integer inequalities with the same outcome (for example 5·verbs ≥ 4·scenarios for 80%).
- SyncChecker.AddTagRecommendations: Python lists the missing tags in the set's iteration order, which it leaves unspecified. The model fixes one order: the EN list's, without repeats (`SyncChecker.Missing`).
- TemplateSync.GeneratedPairFindings: the pattern-count finding is left as a term. `SyncDocument.H2PatternsNotCounted` covers texts without `###`; the generated text itself is not shown to be free of it.
- TemplateSync.FrontmatterReadBack: assumes every tag is free of `]` and neither starts nor ends with a quote. The prompt has already removed commas and surrounding spaces. Other tags are read back cut short or trimmed, so the frontmatter read is not the one given.
- TemplateSync.GeneratedView: states the frontmatter as given only for the tags FrontmatterReadBack assumes. For any other one-line answers, TemplateSync.GeneratedShape states the titles, tables and marker counts, and that the frontmatter read comes from the frontmatter block alone. That is enough for the pair results, which hold for every one-line answer.
- SyncChecker.ExitCodeMeaning: states the ladder at check_sync.py:468-476, which is the exit status of `main` for the text report only. Under `--json` an ERROR result crashes in `print_json_report` and exits 1, and a path that is no directory exits 1 before any check. `SyncChecker.MainExit` models both (see Findings).
- SyncChecker.Repr: Python's `repr` of a tag is modelled for tags without backslashes, unprintable characters or both kinds of quote; tags holding those are printed with escapes the model does not produce.
- SyncChecker.IssueRecommendationsAgree: proved for issues whose names and tags keep clear of the texts the recommendation step tests for; `NameReadAsTags` and `ApostropheTagMisread` show two inputs outside that set where the step gives other advice.

## Findings

| source | as written | input that shows it | evidently intended | confidence | as-written member | corrected member |
|---|---|---|---|---|---|---|
| skills/skill-template-generator/scripts/generate_template.py:204-284, 389-469 | the footers are plain triple-quoted strings rather than f-strings, so the signature lines hold the literal texts `{self.AUTHOR}` and `{datetime.now().strftime("%Y-%m-%d")}` | any answers, e.g. name `my-skill`, one tag, one pattern | the signature names the author and the generation date, as the frontmatter's f-string at line 164 does | not executed | Template.AsWrittenSignature | Template.IntendedSignature |
| skills/skill-revision-guide/scripts/check_sync.py:301 | `.replace("'", "")` strips every apostrophe from the captured list, including those inside a tag; `repr` prints such a tag in double quotes, which stay | missing tag `don't`: the message holds `["don't"]` and the recommendation reads `Add '"dont"' tag to references/SKILL.ja.md` | `Add 'don't' tag to references/SKILL.ja.md`: one recommendation per missing tag, naming the tag | not executed | SyncChecker.ApostropheTagMisread | SyncChecker.TagsIssueRecommendation |
| skills/skill-revision-guide/scripts/check_sync.py:297 | the branch is chosen by searching the message, so an issue is read by whatever test text it happens to contain first | EN name `Tags Mismatch Helper`, JA name `X`: the name issue enters the tags branch and yields no recommendation | the advice of the check that raised the issue, here "Ensure 'name' field matches in both versions" | not executed | SyncChecker.NameReadAsTags | SyncChecker.IssueRecommendationsAgree |
| skills/skill-revision-guide/scripts/check_sync.py:396-401, 463-470 | `print_json_report` reads `result['is_system_skill']`, which the ERROR dict returned for a missing file does not hold, so the `KeyError` escapes `main` before the exit ladder | `check_sync.py DIR --json` where `DIR` exists but has no `SKILL.md`: a traceback and exit status 1, the status of a partial sync | a JSON object with status `ERROR` and the message, and exit status 2 as in the text report | not executed | SyncChecker.JsonErrorExitsOne | SyncChecker.IntendedMainExitMeaning |
