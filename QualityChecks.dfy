/**
 * The 55 checks of skills/skill-quality-validation/scripts/validate_skill.py, in four
 * categories (`StructureValidator`, `ContentValidator`, `CodeQualityValidator`,
 * `LanguageValidator`), and the scoring of `validate_skill_file`.
 *
 * Each category is specified by a function giving its check list; the `Validate…`
 * methods build that list one check at a time, as the source does, and the two loops
 * that stop at the first failing item (scenario lengths and table shapes) are methods
 * proved against the predicates they decide.
 */
module QualityChecks {
  import opened Text
  import opened Validator
  import opened CheckPatterns

  datatype Check = Check(id: string, passed: bool)

  /** Python's `a or b` for an optional text: `None` and `""` are both false. */
  function OrElse(a: Option<string>, b: string): (r: string)
    ensures a.Some? && |a.value| > 0 ==> r == a.value
    ensures a.None? || |a.value| == 0 ==> r == b
  {
    if a.Some? && |a.value| > 0 then a.value else b
  }

  function Max(a: int, b: int): int { if a >= b then a else b }

  // ---------------------------------------------------------------------------
  // Structure (1.x)
  // ---------------------------------------------------------------------------

  /** 1.2: a non-empty frontmatter that mentions the three required keys. */
  predicate HasRequiredFields(frontmatter: Option<string>) {
    frontmatter.Some? && |frontmatter.value| > 0 &&
    var low := Lower(frontmatter.value);
    Contains(low, "name:") && Contains(low, "description:") && Contains(low, "invocable:")
  }

  /** The normalised skill name: stripped, lower-cased, blanks turned into hyphens. */
  function SkillNameOf(value: string): string {
    ReplaceChar(Lower(Strip(value)), ' ', '-')
  }

  /** 1.3: the name equals the folder name or occurs inside it, ignoring ASCII case. */
  predicate NameMatchesFolder(frontmatter: string, folderName: string) {
    match FieldValue(frontmatter, "name:")
    case None => false
    case Some(v) =>
      var skill := SkillNameOf(v);
      skill == Lower(folderName) || Contains(Lower(folderName), skill)
  }

  /** 1.4: the description holds at most 100 characters once stripped. */
  predicate DescriptionShort(frontmatter: string) {
    match FieldValue(frontmatter, "description:")
    case None => false
    case Some(v) => |Strip(v)| <= 100
  }

  /** 1.5: the first H2 title mentions "when to use". */
  predicate WhenToUseFirst(content: string) {
    match FirstH2Title(content)
    case None => false
    case Some(t) => Contains(Lower(t), "when to use")
  }

  /** 1.7 */
  predicate PatternCountOk(content: string) {
    7 <= PatternSectionCount(content) <= 10
  }

  function StructureChecks(content: string, filePath: string, folderName: string): (r: seq<Check>)
    ensures |r| == 10
    ensures r[6].id == "1.7" && (r[6].passed <==> 7 <= PatternSectionCount(content) <= 10)
  {
    var fm := ExtractFrontmatter(content);
    [ Check("1.1", EndsWith(filePath, "SKILL.md")),
      Check("1.2", HasRequiredFields(fm)),
      Check("1.3", NameMatchesFolder(fm.GetOr(""), folderName)),
      Check("1.4", DescriptionShort(fm.GetOr(""))),
      Check("1.5", WhenToUseFirst(content)),
      Check("1.6", HasSection(content, "Core Principles") || HasSection(content, "The Philosophy")),
      Check("1.7", PatternCountOk(content)),
      Check("1.8", HasSection(content, "Common Pitfalls")),
      Check("1.9", HasSection(content, "Anti-Patterns")),
      Check("1.10", HasSection(content, "Quick Reference") || HasSection(content, "Decision Tree")) ]
  }

  // ---------------------------------------------------------------------------
  // Content (2.x)
  // ---------------------------------------------------------------------------

  /** The "When to Use" section, with `""` when it is missing. */
  function WhenToUse(content: string): string {
    SectionContent(content, "When to Use").GetOr("")
  }

  function ScenarioCount(section: string): nat {
    |Scenarios(Lines(section))|
  }

  /** 2.1.2: at least 80% of the scenarios start with an "-ing" verb, and there is one. */
  predicate VerbsMostly(section: string) {
    var n := ScenarioCount(section);
    n > 0 && 5 * VerbBulletCount(Lines(section)) >= 4 * n
  }

  /** 2.1.3: every scenario text is 50 to 100 characters long. */
  predicate ScenarioLengthsOk(section: string) {
    var sc := Scenarios(Lines(section));
    forall k | 0 <= k < |sc| :: 50 <= |sc[k]| <= 100
  }

  const AbstractTerms: seq<string> :=
    ["good code", "quality software", "best practices", "clean code", "proper implementation"]

  /** The principles section: "Core Principles", else "The Philosophy", else empty. */
  function Principles(content: string): string {
    OrElse(SectionContent(content, "Core Principles"), OrElse(SectionContent(content, "The Philosophy"), ""))
  }

  function AntiPatterns(content: string): string {
    SectionContent(content, "Anti-Patterns").GetOr("")
  }

  function Pitfalls(content: string): string {
    SectionContent(content, "Common Pitfalls").GetOr("")
  }

  function QuickReference(content: string): string {
    OrElse(SectionContent(content, "Quick Reference"), SectionContent(content, "Decision Tree").GetOr(""))
  }

  /** 2.3.2: each of the three tiers is named somewhere. */
  predicate HasTiers(content: string) {
    var low := Lower(content);
    ContainsAny(low, ["basic", "simple", "beginner"]) && Contains(low, "intermediate") &&
    ContainsAny(low, ["advanced", "production"])
  }

  /** 2.6.1 */
  predicate DecisionSupport(quick: string) {
    HasTwoCells(quick) || Contains(Lower(quick), "flowchart") || Contains(Lower(quick), "decision")
  }

  /** 2.1.1 */
  predicate ScenarioCountOk(content: string) {
    5 <= ScenarioCount(WhenToUse(content)) <= 8
  }

  /** 2.1.4 */
  predicate NoAbstractTerms(content: string) {
    !ContainsAny(Lower(WhenToUse(content)), AbstractTerms)
  }

  function PrincipleCount(content: string): nat {
    BoldLeadCount(Principles(content))
  }

  /** 2.3.1 */
  predicate OverviewsOk(content: string) {
    CountSections(content, IsOverviewHeading) >= 5
  }

  /** 2.3.3 */
  predicate WhenToUseGuidance(content: string) {
    CountOf(Lower(content), "when to use") >= 3
  }

  /** 2.4.1 */
  predicate HasMarkers(content: string) {
    CountChar(content, '\U{274C}') >= 3 && CountChar(content, '\U{2705}') >= 3
  }

  /** 2.5.1 */
  predicate ArchitectureLevel(content: string) {
    var anti := AntiPatterns(content);
    ContainsAny(Lower(anti), ["architecture", "design", "structure", "layer"]) || |anti| > 100
  }

  /** 2.5.2 */
  predicate ImplementationLevel(content: string) {
    var pitfalls := Pitfalls(content);
    ContainsAny(Lower(pitfalls), ["implement", "code", "method", "function"]) || |pitfalls| > 100
  }

  const FixTerms: seq<string> := ["fix", "solution", "instead", "correct"]

  /** 2.5.3 */
  predicate HasFixes(content: string) {
    CountAlt(Lower(AntiPatterns(content) + Pitfalls(content)), FixTerms) >= 3
  }

  /** 2.6.2 */
  predicate Scannable(content: string) {
    var quick := QuickReference(content);
    |quick| > 50 && DecisionSupport(quick)
  }

  function ContentChecks(content: string): (r: seq<Check>)
    ensures |r| == 20
  {
    WhenToUseChecks(content) + PrincipleChecks(content) + PatternChecks(content)
    + ProblemSolutionChecks(content) + PitfallChecks(content) + QuickReferenceChecks(content)
  }

  /** 2.1: the "When to Use" section. */
  function WhenToUseChecks(content: string): seq<Check> {
    [Check("2.1.1", ScenarioCountOk(content)),
     Check("2.1.2", VerbsMostly(WhenToUse(content))),
     Check("2.1.3", ScenarioLengthsOk(WhenToUse(content))),
     Check("2.1.4", NoAbstractTerms(content))]
  }

  /** 2.2: the principles section. */
  function PrincipleChecks(content: string): seq<Check> {
    var principles := PrincipleCount(content);
    [Check("2.2.1", 3 <= principles <= 5),
     Check("2.2.2", principles > 0),
     Check("2.2.3", principles >= 3)]
  }

  /** 2.3: the pattern sections. */
  function PatternChecks(content: string): seq<Check> {
    [Check("2.3.1", OverviewsOk(content)),
     Check("2.3.2", HasTiers(content)),
     Check("2.3.3", WhenToUseGuidance(content)),
     Check("2.3.4", true),
     Check("2.3.5", true),
     Check("2.3.6", HasTwoCells(content))]
  }

  /** 2.4: problem and solution. */
  function ProblemSolutionChecks(content: string): seq<Check> {
    [Check("2.4.1", HasMarkers(content)),
     Check("2.4.2", WhyCount(content) >= 5)]
  }

  /** 2.5: anti-patterns and pitfalls. */
  function PitfallChecks(content: string): seq<Check> {
    [Check("2.5.1", ArchitectureLevel(content)),
     Check("2.5.2", ImplementationLevel(content)),
     Check("2.5.3", HasFixes(content))]
  }

  /** 2.6: the quick reference. */
  function QuickReferenceChecks(content: string): seq<Check> {
    [Check("2.6.1", DecisionSupport(QuickReference(content))),
     Check("2.6.2", Scannable(content))]
  }

  /** Without scenarios, 2.1.2 fails and 2.1.3 passes: an absent "When to Use" section
      costs one point, not two. */
  lemma {:induction false} NoScenarios(section: string)
    requires ScenarioCount(section) == 0
    ensures !VerbsMostly(section)
    ensures ScenarioLengthsOk(section)
  {
    assert |Scenarios(Lines(section))| == 0;
  }

  // ---------------------------------------------------------------------------
  // Code quality (3.x)
  // ---------------------------------------------------------------------------

  const ErrorTerms: seq<string> := ["try", "catch", "exception", "error handling"]
  const AsyncTerms: seq<string> := ["async", "await", "task<", "cancellationtoken"]

  /** 3.2.1: "simple", "intermediate" and "advanced" first occur in that order. */
  predicate Progression(low: string) {
    var s := Find(low, "simple");
    var i := Find(low, "intermediate");
    var a := Find(low, "advanced");
    s.Some? && i.Some? && a.Some? && s.value < i.value < a.value
  }

  /** 3.3.2: `//` and `#` marks over all code blocks. */
  function CommentCount(blocks: seq<string>): nat {
    if |blocks| == 0 then 0
    else CountOf(blocks[0], "//") + CountChar(blocks[0], '#') + CommentCount(blocks[1..])
  }

  predicate SomeBlockContains(blocks: seq<string>, term: string) {
    exists k | 0 <= k < |blocks| :: Contains(blocks[k], term)
  }

  predicate SomeBlockMentionsAsync(blocks: seq<string>) {
    exists k | 0 <= k < |blocks| :: Contains(Lower(blocks[k]), "async")
  }

  /** 3.1.1 */
  predicate CompilableOrPseudocode(content: string) {
    |CodeBlocks(content)| > 0 || Contains(Lower(content), "pseudocode")
  }

  /** 3.1.2 */
  predicate HasUsing(content: string) {
    var blocks := CodeBlocks(content);
    SomeBlockContains(blocks, "using ") || |blocks| == 0
  }

  /** 3.1.3 */
  predicate DependenciesDocumented(content: string) {
    ContainsAny(Lower(content), ["nuget", "package", "dependency", "dependencies", "npm", "pip"])
    || |CodeBlocks(content)| == 0
  }

  /** 3.2.1 */
  predicate ProgressionOk(content: string) {
    Progression(Lower(content)) || |CodeBlocks(content)| < 3
  }

  /** 3.2.2 */
  predicate HasRationale(content: string) {
    TermsPresent(Lower(content), ["evolve", "improve", "enhance", "why", "because", "reason"]) >= 3
  }

  /** 3.2.3 and 3.4.3 */
  predicate HasErrorHandling(content: string) {
    ContainsAny(Lower(content), ErrorTerms)
  }

  /** 3.3.1 */
  predicate MarkersConsistent(content: string) {
    CountChar(content, '\U{2705}') + CountChar(content, '\U{274C}') >= 6
  }

  /** 3.3.2 */
  predicate HasComments(content: string) {
    var blocks := CodeBlocks(content);
    CommentCount(blocks) >= 3 || |blocks| == 0
  }

  /** 3.4.1 */
  predicate HasDependencyInjection(content: string) {
    ContainsAny(Lower(content), ["dependency injection", "addscoped", "addsingleton", "addtransient", "configure services"])
    || Contains(content, "N/A")
  }

  /** 3.4.2 */
  predicate HasConfiguration(content: string) {
    ContainsAny(Lower(content), ["appsettings.json", "config", "configuration", "app.config", "web.config"])
    || |CodeBlocks(content)| < 3
  }

  /** 3.4.4 */
  predicate AsyncOk(content: string) {
    ContainsAny(Lower(content), AsyncTerms) || !SomeBlockMentionsAsync(CodeBlocks(content))
  }

  /** 3.4.5 */
  predicate HasResourceManagement(content: string) {
    ContainsAny(Lower(content), ["using", "dispose", "idisposable"]) || |CodeBlocks(content)| < 3
  }

  function CodeChecks(content: string): (r: seq<Check>)
    ensures |r| == 15
    ensures r[13].id == "3.4.4"
  {
    [ Check("3.1.1", CompilableOrPseudocode(content)),
      Check("3.1.2", HasUsing(content)),
      Check("3.1.3", DependenciesDocumented(content)),
      Check("3.2.1", ProgressionOk(content)),
      Check("3.2.2", HasRationale(content)),
      Check("3.2.3", HasErrorHandling(content)),
      Check("3.3.1", MarkersConsistent(content)),
      Check("3.3.2", HasComments(content)),
      Check("3.3.3", true),
      Check("3.3.4", true),
      Check("3.4.1", HasDependencyInjection(content)),
      Check("3.4.2", HasConfiguration(content)),
      Check("3.4.3", HasErrorHandling(content)),
      Check("3.4.4", AsyncOk(content)),
      Check("3.4.5", HasResourceManagement(content)) ]
  }

  /** Check 3.4.4 cannot fail: a code block is a slice of the document, so a block that
      mentions "async" makes the document mention it too. */
  lemma {:induction false} AsyncCheckAlwaysPasses(content: string)
    ensures CodeChecks(content)[13].passed
  {
    var blocks := CodeBlocks(content);
    if SomeBlockMentionsAsync(blocks) {
      var k :| 0 <= k < |blocks| && Contains(Lower(blocks[k]), "async");
      assert blocks[k] in blocks;
      var x, y :| 0 <= x <= y <= |content| && blocks[k] == content[x..y];
      LowerSlice(content, x, y);
      ContainsSlice(Lower(content), x, y, "async");
      assert Contains(Lower(content), AsyncTerms[0]);
    }
  }

  // ---------------------------------------------------------------------------
  // Language (4.x)
  // ---------------------------------------------------------------------------

  const PassiveTerms: seq<string> :=
    ["is recommended", "is used", "is implemented", "are required", "was created", "were designed"]
  const VagueTerms: seq<string> := ["may", "might", "possibly", "perhaps", "sometimes", "often"]

  /** The column count of a table match: bars in its first line, less one. */
  function Columns(table: string): int {
    CountChar(Split(table, '\n')[0], '|') - 1
  }

  /** 4.3.2 for one table: 3 to 6 columns and at most 15 pieces between newlines. */
  predicate TableReadable(table: string) {
    3 <= Columns(table) <= 6 && |Split(table, '\n')| <= 15
  }

  predicate AllTablesReadable(tables: seq<string>) {
    forall k | 0 <= k < |tables| :: TableReadable(tables[k])
  }

  /** 4.1.1: passive phrases are under 20% of the sentence count (dots, at least 1). */
  predicate ActiveVoice(content: string) {
    5 * SumCounts(Lower(content), PassiveTerms) < Max(CountChar(content, '.'), 1)
  }

  /** 4.1.2: fewer than 20% of the prose lines are longer than 200 characters. */
  predicate ShortSentences(content: string) {
    var lines := Lines(content);
    5 * CountWhere(lines, IsLongProse) < CountWhere(lines, IsProse)
  }

  /** 4.1.3 */
  predicate ImperativeMood(content: string) {
    CountWhere(Lines(content), IsImperativeBullet) >= 5
  }

  /** 4.1.4 */
  predicate FewVagueTerms(content: string) {
    SumCounts(Lower(content), VagueTerms) < 10
  }

  /** 4.3.1 */
  predicate EnoughHeadings(content: string) {
    CountSections(content, IsH2OrH3) >= 10
  }

  /** 4.3.2 */
  predicate TablesOk(content: string) {
    var tables := Tables(content);
    AllTablesReadable(tables) || |tables| == 0
  }

  /** 4.3.3 */
  predicate Highlighted(content: string) {
    CountOf(content, "**") >= 20 && |Tables(content)| > 0
  }

  function LanguageChecks(content: string): (r: seq<Check>)
    ensures |r| == 10
  {
    [Check("4.1.1", ActiveVoice(content))]
    + [Check("4.1.2", ShortSentences(content))]
    + [Check("4.1.3", ImperativeMood(content))]
    + [Check("4.1.4", FewVagueTerms(content))]
    + [Check("4.2.1", true)]
    + [Check("4.2.2", DefinitionCount(content) >= 3)]
    + [Check("4.2.3", HasExpandedAcronym(content))]
    + [Check("4.3.1", EnoughHeadings(content))]
    + [Check("4.3.2", TablesOk(content))]
    + [Check("4.3.3", Highlighted(content))]
  }

  /** Every table match splits into exactly two pieces (its one row and the empty text
      after its newline), so the limit of 15 rows never rejects a table: check 4.3.2
      depends on the column counts alone. */
  lemma {:induction false} TableRowLimitNeverApplies(content: string, k: nat)
    requires k < |Tables(content)|
    ensures |Split(Tables(content)[k], '\n')| == 2
    ensures TableReadable(Tables(content)[k]) <==> 3 <= Columns(Tables(content)[k]) <= 6
  {
    var t := Tables(content)[k];
    assert t in Tables(content);
    var row := t[..|t| - 1];
    assert t == row + "\n" + "";
    SplitAfterPiece(row, '\n', "");
  }

  // ---------------------------------------------------------------------------
  // The loops that stop at the first failure
  // ---------------------------------------------------------------------------

  /** The scenario-length loop of check 2.1.3. */
  method CheckScenarioLengths(section: string) returns (ok: bool)
    ensures ok <==> ScenarioLengthsOk(section)
  {
    var scenarios := Scenarios(Lines(section));
    ok := true;
    var i := 0;
    while i < |scenarios|
      invariant 0 <= i <= |scenarios|
      invariant forall k | 0 <= k < i :: 50 <= |scenarios[k]| <= 100
    {
      if !(50 <= |scenarios[i]| <= 100) {
        ok := false;
        break;
      }
      i := i + 1;
    }
  }

  /** The table loop of check 4.3.2. */
  method CheckTables(tables: seq<string>) returns (ok: bool)
    ensures ok <==> AllTablesReadable(tables)
  {
    ok := true;
    var i := 0;
    while i < |tables|
      invariant 0 <= i <= |tables|
      invariant forall k | 0 <= k < i :: TableReadable(tables[k])
    {
      var cols := CountChar(Split(tables[i], '\n')[0], '|') - 1;
      var rows := |Split(tables[i], '\n')|;
      if !(3 <= cols <= 6) || rows > 15 {
        ok := false;
        break;
      }
      i := i + 1;
    }
  }

  // ---------------------------------------------------------------------------
  // The validate() methods
  // ---------------------------------------------------------------------------

  /** The checks of 2.1, over the "When to Use" section. */
  method CheckWhenToUse(content: string) returns (checks: seq<Check>)
    ensures checks == WhenToUseChecks(content)
  {
    var when := WhenToUse(content);
    var count := ScenarioCount(when);
    var verbs := VerbBulletCount(Lines(when));
    var lengthsOk := CheckScenarioLengths(when);
    var verbsOk := if count > 0 then 5 * verbs >= 4 * count else false;
    assert verbsOk == VerbsMostly(when);
    checks := [Check("2.1.1", 5 <= count <= 8),
               Check("2.1.2", verbsOk),
               Check("2.1.3", lengthsOk),
               Check("2.1.4", NoAbstractTerms(content))];
  }

  method ValidateContent(content: string) returns (checks: seq<Check>)
    ensures checks == ContentChecks(content)
  {
    // 2.1
    var whenToUse := CheckWhenToUse(content);
    // 2.2
    var principles := PrincipleCount(content);
    var principleChecks := [Check("2.2.1", 3 <= principles <= 5),
                            Check("2.2.2", principles > 0),
                            Check("2.2.3", principles >= 3)];
    // 2.3 to 2.5
    var patterns := PatternChecks(content);
    var problemSolution := ProblemSolutionChecks(content);
    var pitfalls := PitfallChecks(content);
    // 2.6
    var support := DecisionSupport(QuickReference(content));
    var quick := [Check("2.6.1", support), Check("2.6.2", Scannable(content))];
    checks := whenToUse + principleChecks + patterns + problemSolution + pitfalls + quick;
  }

  method ValidateLanguage(content: string) returns (checks: seq<Check>)
    ensures checks == LanguageChecks(content)
  {
    checks := [Check("4.1.1", ActiveVoice(content))];
    checks := checks + [Check("4.1.2", ShortSentences(content))];
    checks := checks + [Check("4.1.3", ImperativeMood(content))];
    checks := checks + [Check("4.1.4", FewVagueTerms(content))];
    checks := checks + [Check("4.2.1", true)];
    checks := checks + [Check("4.2.2", DefinitionCount(content) >= 3)];
    checks := checks + [Check("4.2.3", HasExpandedAcronym(content))];
    checks := checks + [Check("4.3.1", EnoughHeadings(content))];
    var tables := Tables(content);
    var readable := CheckTables(tables);
    checks := checks + [Check("4.3.2", readable || |tables| == 0)];
    assert readable || |tables| == 0 <==> TablesOk(content);
    checks := checks + [Check("4.3.3", Highlighted(content))];
  }

  // ---------------------------------------------------------------------------
  // Scoring: validate_skill_file
  // ---------------------------------------------------------------------------

  /** `sum(1 for c in checks if c.passed)` */
  function CountPassed(checks: seq<Check>): (n: nat)
    ensures n <= |checks|
  {
    if |checks| == 0 then 0
    else CountPassed(checks[..|checks| - 1]) + (if checks[|checks| - 1].passed then 1 else 0)
  }

  method Score(checks: seq<Check>) returns (score: nat)
    ensures score == CountPassed(checks)
  {
    score := 0;
    for i := 0 to |checks|
      invariant score == CountPassed(checks[..i])
    {
      assert checks[..i + 1][..i] == checks[..i];
      if checks[i].passed {
        score := score + 1;
      }
    }
    assert checks[..|checks|] == checks;
  }

  datatype Category = Category(name: string, checks: seq<Check>, score: nat, maxScore: nat, passed: bool)

  datatype Report = Report(filePath: string, categories: seq<Category>, totalScore: nat, totalMax: nat, passed: bool)

  /** The overall decision: every category passes and the total is at least 85% of 55. */
  predicate OverallPass(categoriesPass: bool, total: nat) {
    total * 100 >= 85 * 55 && categoriesPass
  }

  /** A category whose score counts its passed checks, out of `size`, passing at `mark`. */
  predicate Scored(c: Category, name: string, size: nat, mark: nat) {
    && c.name == name
    && c.maxScore == size
    && |c.checks| == size
    && c.score == CountPassed(c.checks)
    && c.score <= c.maxScore
    && (c.passed <==> c.score >= mark)
  }

  /** `validate_skill_file`: the four categories are scored and the report decided. */
  method ValidateSkillFile(filePath: string, folderName: string, content: string) returns (report: Report)
    ensures report.filePath == filePath
    ensures |report.categories| == 4
    ensures report.categories[0].checks == StructureChecks(content, filePath, folderName)
    ensures report.categories[1].checks == ContentChecks(content)
    ensures report.categories[2].checks == CodeChecks(content)
    ensures report.categories[3].checks == LanguageChecks(content)
    ensures Decided(report)
  {
    var structureChecks := StructureChecks(content, filePath, folderName);
    var contentChecks := ValidateContent(content);
    var codeChecks := CodeChecks(content);
    var languageChecks := ValidateLanguage(content);
    report := Decide(filePath, structureChecks, contentChecks, codeChecks, languageChecks);
  }

  /** A report whose categories are scored with their sizes and pass marks, whose total is
      the sum of the category scores out of 55, and which passes iff every category passes
      and the total reaches 47 (85% of 55). */
  predicate Decided(report: Report) {
    && |report.categories| == 4
    && Scored(report.categories[0], "Structure", 10, 8)
    && Scored(report.categories[1], "Content", 20, 16)
    && Scored(report.categories[2], "Code Quality", 15, 12)
    && Scored(report.categories[3], "Language", 10, 8)
    && report.totalScore == report.categories[0].score + report.categories[1].score
                            + report.categories[2].score + report.categories[3].score
    && report.totalMax == 55 == report.categories[0].maxScore + report.categories[1].maxScore
                                + report.categories[2].maxScore + report.categories[3].maxScore
    && report.totalScore <= report.totalMax
    && (report.passed <==>
          report.categories[0].passed && report.categories[1].passed && report.categories[2].passed
          && report.categories[3].passed && report.totalScore >= 47)
  }

  /** The scoring half of `validate_skill_file`, over the four check lists. */
  method Decide(filePath: string, structureChecks: seq<Check>, contentChecks: seq<Check>,
                codeChecks: seq<Check>, languageChecks: seq<Check>) returns (report: Report)
    requires |structureChecks| == 10 && |contentChecks| == 20
    requires |codeChecks| == 15 && |languageChecks| == 10
    ensures report.filePath == filePath
    ensures |report.categories| == 4
    ensures report.categories[0].checks == structureChecks
    ensures report.categories[1].checks == contentChecks
    ensures report.categories[2].checks == codeChecks
    ensures report.categories[3].checks == languageChecks
    ensures Decided(report)
  {
    var structure := Rate("Structure", structureChecks, 10, 8);
    var contentResult := Rate("Content", contentChecks, 20, 16);
    var code := Rate("Code Quality", codeChecks, 15, 12);
    var language := Rate("Language", languageChecks, 10, 8);

    var total := structure.score + contentResult.score + code.score + language.score;
    var allPassed := structure.passed && contentResult.passed && code.passed && language.passed;
    report := Report(filePath, [structure, contentResult, code, language], total, 55, OverallPass(allPassed, total));
  }

  /** One `CategoryResult`: the score is the number of passed checks, and the category
      passes at `mark`. */
  method Rate(name: string, checks: seq<Check>, size: nat, mark: nat) returns (c: Category)
    requires |checks| == size
    ensures c.checks == checks
    ensures Scored(c, name, size, mark)
  {
    var score := Score(checks);
    c := Category(name, checks, score, size, score >= mark);
  }

  /** The 80% `overall_threshold` of the report plays no part in the decision: a document
      at 46/55 (above 80%) is rejected even when every category passes. */
  lemma {:induction false} EightyPercentIsNotEnough()
    ensures 46 * 100 >= 80 * 55 && !OverallPass(true, 46)
  {
  }
}
