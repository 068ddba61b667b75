/**
 * `SyncChecker` of skills/skill-revision-guide/scripts/check_sync.py: compares an English
 * and a Japanese `SkillDocument`, appends each finding to `issues`, `warnings` or
 * `successes`, and derives the overall status, the recommendations and the exit code.
 *
 * A finding is a category and a `Kind` carrying the values its message shows; `Message`
 * renders the text the script prints.
 */
module SyncChecker {
  import opened Text
  import opened Validator
  import opened SyncDocument

  // ---------------------------------------------------------------------------
  // Decimal numerals: f'{n}' and int(…)
  // ---------------------------------------------------------------------------

  function DigitChar(d: nat): char
    requires d < 10
  {
    ('0' as int + d) as char
  }

  /** `str(n)`: decimal digits without leading zeros. */
  function NatToString(n: nat): (r: string)
    ensures |r| > 0
    ensures forall k | 0 <= k < |r| :: IsAsciiDigit(r[k])
  {
    if n < 10 then [DigitChar(n)] else NatToString(n / 10) + [DigitChar(n % 10)]
  }

  /** `int(s)` for a string of ASCII digits. */
  function DigitsValue(s: string): nat
    requires forall k | 0 <= k < |s| :: IsAsciiDigit(s[k])
  {
    if |s| == 0 then 0
    else
      assert IsAsciiDigit(s[|s| - 1]);
      DigitsValue(s[..|s| - 1]) * 10 + (s[|s| - 1] as int - '0' as int)
  }

  /** Reading back a printed number gives the number. */
  lemma {:induction false} DigitsValueOfNatToString(n: nat)
    ensures DigitsValue(NatToString(n)) == n
  {
    if n >= 10 {
      var s := NatToString(n);
      assert s[..|s| - 1] == NatToString(n / 10);
      DigitsValueOfNatToString(n / 10);
    }
  }

  /** The value of `\d+` after the first occurrence of `key` that is followed by a digit,
      at or after `i`: `re.search(key + r'(\d+)', s)`. */
  function NumberAfter(s: string, key: string, i: nat): Option<nat>
    decreases |s| - i
  {
    if i + |key| > |s| then None
    else if OccursAt(s, key, i) && DigitRun(s[i + |key|..]) > 0 then
      var t := s[i + |key|..];
      Some(DigitsValue(t[..DigitRun(t)]))
    else NumberAfter(s, key, i + 1)
  }

  /** Positions where `key` does not occur are passed over. */
  lemma {:induction false} NumberAfterSkips(s: string, key: string, i: nat, j: nat)
    requires i <= j <= |s|
    requires forall k | i <= k < j :: !OccursAt(s, key, k)
    ensures NumberAfter(s, key, i) == NumberAfter(s, key, j)
    decreases j - i
  {
    if i < j {
      NumberAfterSkips(s, key, i + 1, j);
    }
  }

  /** A number printed after `key` and followed by a non-digit is read back, provided
      the text before it has no earlier occurrence of `key`. */
  lemma {:induction false} NumberAfterPrinted(pre: string, key: string, n: nat, post: string)
    requires |key| > 0 && key[0] !in pre
    requires |post| == 0 || !IsAsciiDigit(post[0])
    ensures NumberAfter(pre + key + NatToString(n) + post, key, 0) == Some(n)
  {
    var s := pre + key + NatToString(n) + post;
    NoKeyBefore(s, pre, key);
    NumberAfterSkips(s, key, 0, |pre|);
    NumberAt(s, pre, key, n, post);
  }

  lemma {:induction false} NoKeyBefore(s: string, pre: string, key: string)
    requires |key| > 0 && key[0] !in pre && |pre| <= |s| && s[..|pre|] == pre
    ensures forall k | 0 <= k < |pre| :: !OccursAt(s, key, k)
  {
    forall k | 0 <= k < |pre| ensures !OccursAt(s, key, k) {
      assert s[..|pre|][k] == s[k];
      assert s[k] != key[0];
      if k + |key| <= |s| {
        assert s[k..k + |key|][0] == s[k];
      }
    }
  }

  lemma {:induction false} NumberAt(s: string, pre: string, key: string, n: nat, post: string)
    requires s == pre + key + NatToString(n) + post
    requires |post| == 0 || !IsAsciiDigit(post[0])
    ensures NumberAfter(s, key, |pre|) == Some(n)
  {
    var d := NatToString(n);
    assert s[|pre|..|pre| + |key|] == key;
    var t := s[|pre| + |key|..];
    assert t == d + post;
    DigitRunOf(d, post);
    assert t[..|d|] == d;
    DigitsValueOfNatToString(n);
  }

  lemma {:induction false} DigitRunOf(d: string, post: string)
    requires forall k | 0 <= k < |d| :: IsAsciiDigit(d[k])
    requires |post| == 0 || !IsAsciiDigit(post[0])
    ensures DigitRun(d + post) == |d|
  {
    if |d| > 0 {
      assert (d + post)[1..] == d[1..] + post;
      DigitRunOf(d[1..], post);
    } else {
      assert d + post == post;
    }
  }

  // ---------------------------------------------------------------------------
  // Findings
  // ---------------------------------------------------------------------------

  datatype Severity = Issue | Warning | Success

  /** What a finding reports, with the values its message embeds. */
  datatype Kind =
    | NameMatch(name: string)
    | NameMismatch(enName: string, jaName: string)
    | DescriptionMatch(enLength: nat, jaLength: nat)
    | DescriptionVariance(enLength: nat, jaLength: nat)
    | AuthorMatch(author: string)
    | AuthorMismatch(enAuthor: string, jaAuthor: string)
    | TagsMatch(count: nat)
    | TagsMismatch(missingInJa: seq<string>, extraInJa: seq<string>)
    | SectionsMatch(enCount: nat, jaCount: nat)
    | SectionCountMismatch(enCount: nat, jaCount: nat)
    | SectionDiffers(position: nat, enTitle: string, jaTitle: string)
    | PatternsMatch(enCount: nat, jaCount: nat)
    | PatternsMismatch(enCount: nat, jaCount: nat)
    | GoodExamplesMatch(enCount: nat, jaCount: nat)
    | GoodExamplesVariance(enCount: nat, jaCount: nat)
    | BadExamplesMatch(enCount: nat, jaCount: nat)
    | BadExamplesVariance(enCount: nat, jaCount: nat)
    | TablesMatch(enCount: nat, jaCount: nat)
    | TablesDiffer(enCount: nat, jaCount: nat)

  /** The `(category, message)` tuple. */
  datatype Finding = Finding(category: string, kind: Kind)

  /** A finding and the list it is appended to. */
  datatype Graded = Graded(severity: Severity, finding: Finding)

  function Distance(a: nat, b: nat): nat {
    if a >= b then a - b else b - a
  }

  /** `repr(tag)`: in single quotes, or in double quotes when the tag holds a single quote
      and no double quote. */
  function Repr(t: string): (r: string)
    ensures |r| == |t| + 2
  {
    if '\'' in t && '"' !in t then "\"" + t + "\"" else "'" + t + "'"
  }

  function Reprs(items: seq<string>): (r: seq<string>)
    ensures |r| == |items|
    ensures forall k | 0 <= k < |items| :: r[k] == Repr(items[k])
  {
    seq(|items|, k requires 0 <= k < |items| => Repr(items[k]))
  }

  /** `str(list)` of tags. */
  function ListRepr(items: seq<string>): string {
    "[" + Join(Reprs(items), ", ") + "]"
  }

  /** The message text of each finding. Each kind's text is a function of its own, so
      that reasoning about one kind does not unfold the texts of the others. */
  function Message(kind: Kind): (m: string)
    ensures kind.TagsMismatch? ==> m == TagsMessageOf(kind.missingInJa, kind.extraInJa)
  {
    match kind
    case NameMatch(n) => NameMatchText(n)
    case NameMismatch(e, j) => NameMismatchText(e, j)
    case DescriptionMatch(e, j) => DescriptionMatchText(e, j)
    case DescriptionVariance(e, j) => DescriptionVarianceText(e, j)
    case AuthorMatch(a) => AuthorMatchText(a)
    case AuthorMismatch(e, j) => AuthorMismatchText(e, j)
    case TagsMatch(c) => TagsMatchText(c)
    case TagsMismatch(m, x) => TagsMessageOf(m, x)
    case SectionsMatch(e, j) => SectionsMatchText(e, j)
    case SectionCountMismatch(e, j) => SectionCountText(e, j)
    case SectionDiffers(i, e, j) => SectionDiffersText(i, e, j)
    case PatternsMatch(e, j) => PatternsMatchText(e, j)
    case PatternsMismatch(e, j) => PatternMismatchMessage(e, j)
    case GoodExamplesMatch(e, j) => GoodMatchText(e, j)
    case GoodExamplesVariance(e, j) => GoodVarianceText(e, j)
    case BadExamplesMatch(e, j) => BadMatchText(e, j)
    case BadExamplesVariance(e, j) => BadVarianceText(e, j)
    case TablesMatch(e, j) => TablesMatchText(e, j)
    case TablesDiffer(e, j) => TablesDifferText(e, j)
  }

  function NameMatchText(n: string): string {
    "name: " + n + " (match)"
  }

  function NameMismatchText(e: string, j: string): string {
    "name mismatch: EN=\"" + e + "\" JA=\"" + j + "\""
  }

  function DescriptionMatchText(e: nat, j: nat): string {
    "description: length match (EN: " + NatToString(e) + " chars, JA: " + NatToString(j) + " chars)"
  }

  function DescriptionVarianceText(e: nat, j: nat): string {
    "description length variance: EN=" + NatToString(e) + ", JA=" + NatToString(j)
  }

  function AuthorMatchText(a: string): string {
    "author: " + a + " (match)"
  }

  function AuthorMismatchText(e: string, j: string): string {
    "author mismatch: EN=\"" + e + "\" JA=\"" + j + "\""
  }

  function TagsMatchText(c: nat): string {
    "tags: " + NatToString(c) + " tags match"
  }

  function SectionsMatchText(e: nat, j: nat): string {
    "H2 sections: " + NatToString(e) + "/" + NatToString(j) + " match"
  }

  function SectionCountText(e: nat, j: nat): string {
    "Section count mismatch: EN=" + NatToString(e) + ", JA=" + NatToString(j)
  }

  function SectionDiffersText(i: nat, e: string, j: string): string {
    "Section " + NatToString(i) + " differs: EN=\"" + e + "\" JA=\"" + j + "\""
  }

  function PatternsMatchText(e: nat, j: nat): string {
    "Pattern count: " + NatToString(e) + "/" + NatToString(j) + " match"
  }

  function GoodMatchText(e: nat, j: nat): string {
    "Good examples (\U{2705}): EN=" + NatToString(e) + ", JA=" + NatToString(j) + " (match)"
  }

  function GoodVarianceText(e: nat, j: nat): string {
    "Good examples (\U{2705}): EN=" + NatToString(e) + ", JA=" + NatToString(j)
    + " (variance: " + NatToString(Distance(e, j)) + ")"
  }

  function BadMatchText(e: nat, j: nat): string {
    "Bad examples (\U{274C}): EN=" + NatToString(e) + ", JA=" + NatToString(j) + " (match)"
  }

  function BadVarianceText(e: nat, j: nat): string {
    "Bad examples (\U{274C}): EN=" + NatToString(e) + ", JA=" + NatToString(j)
    + " (variance: " + NatToString(Distance(e, j)) + ")"
  }

  function TablesMatchText(e: nat, j: nat): string {
    "Table count: " + NatToString(e) + "/" + NatToString(j) + " match"
  }

  function TablesDifferText(e: nat, j: nat): string {
    "Table count differs: EN=" + NatToString(e) + ", JA=" + NatToString(j)
  }

  /** The tags message: `msg.strip()`. */
  function TagsMessageOf(missing: seq<string>, extra: seq<string>): string {
    Strip(TagsMismatchText(missing, extra))
  }

  /** `msg` of the tags check before its final `strip()`. */
  function TagsMismatchText(missing: seq<string>, extra: seq<string>): string {
    "tags mismatch: "
    + (if |missing| > 0 then "Missing in JA: " + ListRepr(missing) + ". " else "")
    + (if |extra| > 0 then "Extra in JA: " + ListRepr(extra) + "." else "")
  }

  function PatternMismatchMessage(en: nat, ja: nat): string {
    "Pattern count mismatch: EN=" + NatToString(en) + ", JA=" + NatToString(ja)
  }

  /** The findings of one severity, in order. */
  function Only(gs: seq<Graded>, severity: Severity): (r: seq<Finding>)
    ensures |r| <= |gs|
  {
    if |gs| == 0 then []
    else Only(gs[..|gs| - 1], severity)
         + (if gs[|gs| - 1].severity == severity then [gs[|gs| - 1].finding] else [])
  }

  lemma {:induction false} AppendAssoc(a: seq<Finding>, b: seq<Finding>, c: seq<Finding>)
    ensures a + b + c == a + (b + c)
  {
  }

  lemma {:induction false} OnlyAppend(a: seq<Graded>, b: seq<Graded>, severity: Severity)
    ensures Only(a + b, severity) == Only(a, severity) + Only(b, severity)
    decreases |b|
  {
    if |b| == 0 {
      assert a + b == a;
    } else {
      assert (a + b)[..|a + b| - 1] == a + b[..|b| - 1];
      OnlyAppend(a, b[..|b| - 1], severity);
    }
  }

  // ---------------------------------------------------------------------------
  // The checks as functions of the two documents
  // ---------------------------------------------------------------------------

  /** What a `SkillDocument` contributes to the comparison. */
  datatype DocView = DocView(frontmatter: Frontmatter, sections: seq<string>, patternCount: nat,
                             goodExamples: nat, badExamples: nat, tableCount: nat)

  /** `abs(en_len - ja_len) / max(en_len, ja_len, 1) <= 0.2`, in integers. */
  predicate DescriptionClose(en: nat, ja: nat) {
    var m := if en >= ja then en else ja;
    5 * Distance(en, ja) <= (if m >= 1 then m else 1)
  }

  function TagSet(tags: seq<string>): set<string> {
    set k | 0 <= k < |tags| :: tags[k]
  }

  lemma {:induction false} TagSetAppend(tags: seq<string>, t: string)
    ensures TagSet(tags + [t]) == TagSet(tags) + {t}
  {
    var s := tags + [t];
    forall x | x in TagSet(s) ensures x in TagSet(tags) + {t} {
      var k :| 0 <= k < |s| && s[k] == x;
      if k < |tags| { assert tags[k] == x; }
    }
    forall x | x in TagSet(tags) ensures x in TagSet(s) {
      var k :| 0 <= k < |tags| && tags[k] == x;
      assert s[k] == x;
    }
    assert s[|tags|] == t;
  }

  /** The tags of `a` missing from `b`, each once, in the order of `a`. */
  function Missing(a: seq<string>, b: seq<string>): (r: seq<string>)
    ensures TagSet(r) == TagSet(a) - TagSet(b)
  {
    if |a| == 0 then []
    else
      var rest := Missing(a[..|a| - 1], b);
      var t := a[|a| - 1];
      TagSetAppend(a[..|a| - 1], t);
      assert a[..|a| - 1] + [t] == a;
      TagSetAppend(rest, t);
      if t in TagSet(b) || t in TagSet(rest) then rest else rest + [t]
  }

  /** `_check_frontmatter`: name, description length, author, tag set. */
  function FrontmatterFindings(en: Frontmatter, ja: Frontmatter, strict: bool): seq<Graded> {
    var enName := en.name.GetOr("");
    var jaName := ja.name.GetOr("");
    var enLength := |en.description.GetOr("")|;
    var jaLength := |ja.description.GetOr("")|;
    var enAuthor := en.author.GetOr("");
    var jaAuthor := ja.author.GetOr("");
    var enTags := en.tags.GetOr([]);
    var jaTags := ja.tags.GetOr([]);
    [if enName == jaName then Graded(Success, Finding("frontmatter", NameMatch(enName)))
     else Graded(Issue, Finding("frontmatter", NameMismatch(enName, jaName)))]
    + [if DescriptionClose(enLength, jaLength)
       then Graded(Success, Finding("frontmatter", DescriptionMatch(enLength, jaLength)))
       else Graded(if strict then Issue else Warning,
                   Finding("frontmatter", DescriptionVariance(enLength, jaLength))),
     if enAuthor == jaAuthor then Graded(Success, Finding("frontmatter", AuthorMatch(enAuthor)))
       else Graded(Issue, Finding("frontmatter", AuthorMismatch(enAuthor, jaAuthor))),
     if TagSet(enTags) == TagSet(jaTags)
       then Graded(Success, Finding("frontmatter", TagsMatch(|enTags|)))
       else Graded(Issue, Finding("frontmatter", TagsMismatch(Missing(enTags, jaTags), Missing(jaTags, enTags))))]
  }

  function Min(a: nat, b: nat): nat {
    if a <= b then a else b
  }

  /** The warnings of the zip loop over the first `n` title pairs. */
  function TitleDifferences(en: seq<string>, ja: seq<string>, n: nat): (r: seq<Graded>)
    requires n <= |en| && n <= |ja|
    ensures |r| <= n
  {
    if n == 0 then []
    else TitleDifferences(en, ja, n - 1)
         + (if en[n - 1] != ja[n - 1]
            then [Graded(Warning, Finding("sections", SectionDiffers(n, en[n - 1], ja[n - 1])))]
            else [])
  }

  /** `_check_sections` */
  function SectionFindings(en: seq<string>, ja: seq<string>): seq<Graded> {
    if en == ja then [Graded(Success, Finding("sections", SectionsMatch(|en|, |ja|)))]
    else
      (if |en| != |ja| then [Graded(Issue, Finding("sections", SectionCountMismatch(|en|, |ja|)))] else [])
      + TitleDifferences(en, ja, Min(|en|, |ja|))
  }

  /** `_check_patterns` */
  function PatternFindings(en: nat, ja: nat): seq<Graded> {
    if en == ja then [Graded(Success, Finding("patterns", PatternsMatch(en, ja)))]
    else [Graded(Issue, Finding("patterns", PatternsMismatch(en, ja)))]
  }

  /** `_check_examples`: a difference of at most two markers is a match. */
  function ExampleFindings(enGood: nat, jaGood: nat, enBad: nat, jaBad: nat): seq<Graded> {
    [if Distance(enGood, jaGood) <= 2 then Graded(Success, Finding("examples", GoodExamplesMatch(enGood, jaGood)))
     else Graded(Warning, Finding("examples", GoodExamplesVariance(enGood, jaGood)))]
    + [if Distance(enBad, jaBad) <= 2 then Graded(Success, Finding("examples", BadExamplesMatch(enBad, jaBad)))
       else Graded(Warning, Finding("examples", BadExamplesVariance(enBad, jaBad)))]
  }

  /** `_check_tables` */
  function TableFindings(en: nat, ja: nat): seq<Graded> {
    if en == ja then [Graded(Success, Finding("tables", TablesMatch(en, ja)))]
    else [Graded(Warning, Finding("tables", TablesDiffer(en, ja)))]
  }

  /** Every finding of `check()`, in the order the checks run. */
  function AllFindings(en: DocView, ja: DocView, strict: bool): seq<Graded> {
    FrontmatterFindings(en.frontmatter, ja.frontmatter, strict)
    + SectionFindings(en.sections, ja.sections)
    + PatternFindings(en.patternCount, ja.patternCount)
    + ExampleFindings(en.goodExamples, ja.goodExamples, en.badExamples, ja.badExamples)
    + TableFindings(en.tableCount, ja.tableCount)
  }

  // ---------------------------------------------------------------------------
  // Severity rules
  // ---------------------------------------------------------------------------

  /** Identical title lists give exactly one finding, a success. */
  lemma {:induction false} SameSectionsOneSuccess(titles: seq<string>)
    ensures |Only(SectionFindings(titles, titles), Success)| == 1
    ensures Only(SectionFindings(titles, titles), Issue) == []
    ensures Only(SectionFindings(titles, titles), Warning) == []
  {
    var gs := SectionFindings(titles, titles);
    assert gs[..0] == [];
  }

  lemma {:induction false} TitleDifferencesAreWarnings(en: seq<string>, ja: seq<string>, n: nat)
    requires n <= |en| && n <= |ja|
    ensures Only(TitleDifferences(en, ja, n), Issue) == []
    ensures Only(TitleDifferences(en, ja, n), Success) == []
    ensures |Only(TitleDifferences(en, ja, n), Warning)| == DifferingPositions(en, ja, n)
  {
    if n > 0 {
      TitleDifferencesAreWarnings(en, ja, n - 1);
      var d := TitleDifferences(en, ja, n - 1);
      var last := if en[n - 1] != ja[n - 1]
                  then [Graded(Warning, Finding("sections", SectionDiffers(n, en[n - 1], ja[n - 1])))]
                  else [];
      OnlyAppend(d, last, Issue);
      OnlyAppend(d, last, Success);
      OnlyAppend(d, last, Warning);
      if |last| == 1 {
        assert last[..0] == [];
      }
      DifferingPositionsStep(en, ja, n);
    }
  }

  /** The number of positions below `n` whose titles differ, counted from the front. */
  function DifferingPositions(en: seq<string>, ja: seq<string>, n: nat): nat
    requires n <= |en| && n <= |ja|
  {
    if n == 0 then 0
    else (if en[0] != ja[0] then 1 else 0) + DifferingPositions(en[1..], ja[1..], n - 1)
  }

  lemma {:induction false} DifferingPositionsStep(en: seq<string>, ja: seq<string>, n: nat)
    requires 0 < n <= |en| && n <= |ja|
    ensures DifferingPositions(en, ja, n)
            == DifferingPositions(en, ja, n - 1) + (if en[n - 1] != ja[n - 1] then 1 else 0)
  {
    if n > 1 {
      DifferingPositionsStep(en[1..], ja[1..], n - 1);
      assert en[1..][n - 2] == en[n - 1] && ja[1..][n - 2] == ja[n - 1];
    }
  }

  /** Different title lists: one issue exactly when the lengths differ, and one warning
      per differing position among the first `min(len(en), len(ja))`. */
  lemma {:induction false} DifferentSections(en: seq<string>, ja: seq<string>)
    requires en != ja
    ensures |Only(SectionFindings(en, ja), Issue)| == (if |en| != |ja| then 1 else 0)
    ensures |Only(SectionFindings(en, ja), Warning)| == DifferingPositions(en, ja, Min(|en|, |ja|))
    ensures Only(SectionFindings(en, ja), Success) == []
  {
    var head: seq<Graded> := if |en| != |ja| then [Graded(Issue, Finding("sections", SectionCountMismatch(|en|, |ja|)))] else [];
    var n := Min(|en|, |ja|);
    TitleDifferencesAreWarnings(en, ja, n);
    OnlyAppend(head, TitleDifferences(en, ja, n), Issue);
    OnlyAppend(head, TitleDifferences(en, ja, n), Warning);
    OnlyAppend(head, TitleDifferences(en, ja, n), Success);
    if |head| == 1 {
      assert head[..0] == [];
    }
  }

  lemma {:induction false} SomePositionDiffers(en: seq<string>, ja: seq<string>, n: nat, i: nat)
    requires i < n <= |en| && n <= |ja| && en[i] != ja[i]
    ensures DifferingPositions(en, ja, n) > 0
  {
    if i > 0 {
      SomePositionDiffers(en[1..], ja[1..], n - 1, i - 1);
    }
  }

  /** Equal lengths but different titles: warnings and no issue. */
  lemma {:induction false} ReorderedSectionsOnlyWarn(en: seq<string>, ja: seq<string>)
    requires |en| == |ja| && en != ja
    ensures Only(SectionFindings(en, ja), Issue) == []
    ensures |Only(SectionFindings(en, ja), Warning)| > 0
  {
    DifferentSections(en, ja);
    var i :| 0 <= i < |en| && en[i] != ja[i];
    SomePositionDiffers(en, ja, |en|, i);
  }

  /** The description finding: a success within the 20% band, otherwise an issue under
      `--strict` and a warning without it. */
  lemma {:induction false} DescriptionSeverity(en: Frontmatter, ja: Frontmatter, strict: bool)
    ensures var g := FrontmatterFindings(en, ja, strict)[1];
            var a := |en.description.GetOr("")|;
            var b := |ja.description.GetOr("")|;
            && (g.severity == Success <==> DescriptionClose(a, b))
            && (g.severity == Issue <==> !DescriptionClose(a, b) && strict)
            && (g.severity == Warning <==> !DescriptionClose(a, b) && !strict)
  {
  }

  /** A list has no finding of a severity exactly when none of its entries has it. */
  lemma {:induction false} OnlyEmpty(gs: seq<Graded>, severity: Severity)
    ensures Only(gs, severity) == [] <==> forall k | 0 <= k < |gs| :: gs[k].severity != severity
  {
    if |gs| > 0 {
      OnlyEmpty(gs[..|gs| - 1], severity);
      assert forall k | 0 <= k < |gs| - 1 :: gs[..|gs| - 1][k] == gs[k];
    }
  }

  /** The frontmatter raises no issue exactly when name, author and tag set agree and the
      description lengths are close or the check is lenient. */
  lemma {:induction false} FrontmatterIssues(en: Frontmatter, ja: Frontmatter, strict: bool)
    ensures Only(FrontmatterFindings(en, ja, strict), Issue) == [] <==>
            && en.name.GetOr("") == ja.name.GetOr("")
            && en.author.GetOr("") == ja.author.GetOr("")
            && TagSet(en.tags.GetOr([])) == TagSet(ja.tags.GetOr([]))
            && (DescriptionClose(|en.description.GetOr("")|, |ja.description.GetOr("")|) || !strict)
  {
    var gs := FrontmatterFindings(en, ja, strict);
    OnlyEmpty(gs, Issue);
    assert (forall k | 0 <= k < |gs| :: gs[k].severity != Issue) <==>
           gs[0].severity != Issue && gs[1].severity != Issue && gs[2].severity != Issue && gs[3].severity != Issue;
  }

  /** Example-marker and table differences are never issues. */
  lemma {:induction false} ExamplesAndTablesNeverIssues(enGood: nat, jaGood: nat, enBad: nat, jaBad: nat,
                                                       enTables: nat, jaTables: nat)
    ensures Only(ExampleFindings(enGood, jaGood, enBad, jaBad), Issue) == []
    ensures Only(TableFindings(enTables, jaTables), Issue) == []
  {
    var gs := ExampleFindings(enGood, jaGood, enBad, jaBad);
    assert gs[..1][..0] == [] && gs[..2] == gs;
    var ts := TableFindings(enTables, jaTables);
    assert ts[..0] == [];
  }

  /** A pattern-count difference is always an issue. */
  lemma {:induction false} PatternMismatchIsIssue(en: nat, ja: nat)
    ensures |Only(PatternFindings(en, ja), Issue)| == (if en != ja then 1 else 0)
  {
    assert PatternFindings(en, ja)[..0] == [];
  }

  // ---------------------------------------------------------------------------
  // Status and exit code
  // ---------------------------------------------------------------------------

  datatype Status = Error | PartialSync | SyncWithWarnings | FullSync

  /** `_get_overall_status` on the lists. */
  function StatusOf(issues: seq<Finding>, warnings: seq<Finding>): (s: Status)
    ensures s != Error
  {
    if |issues| > 0 then PartialSync
    else if |warnings| > 0 then SyncWithWarnings
    else FullSync
  }

  datatype CheckResult =
    | Failed(message: string)
    | Checked(status: Status, isSystemSkill: bool, issues: seq<Finding>, warnings: seq<Finding>,
              successes: seq<Finding>, recommendations: seq<string>)

  function StatusOfResult(r: CheckResult): Status {
    match r
    case Failed(_) => Error
    case Checked(s, _, _, _, _, _) => s
  }

  /** The exit status the ladder at the end of `main` picks from the result's status; what
      `main` as a whole exits with is `MainExit`. */
  function ExitCode(r: CheckResult, strict: bool): (code: nat)
    ensures code <= 2
  {
    var s := StatusOfResult(r);
    if s == Error then 2
    else if s == PartialSync then 1
    else if s == SyncWithWarnings && strict then 1
    else 0
  }

  /** The ladder's 0 means no issue, and no warning either under `--strict`; its 2 means a
      file was missing. */
  lemma {:induction false} ExitCodeMeaning(r: CheckResult, strict: bool)
    requires r.Checked? ==> r.status == StatusOf(r.issues, r.warnings)
    ensures ExitCode(r, strict) == 2 <==> r.Failed?
    ensures ExitCode(r, strict) == 0 <==> r.Checked? && |r.issues| == 0 && (!strict || |r.warnings| == 0)
    ensures ExitCode(r, strict) == 1 <==> r.Checked? && (|r.issues| > 0 || (strict && |r.warnings| > 0))
  {
  }

  /** The skill directory as `main` finds it before any check runs. */
  datatype DirState = NoDirectory | NotADirectory | Directory

  /** The exit status of `main` as written. A path that is no directory exits 1 before any
      check. Otherwise the report is printed before the ladder runs, and the JSON report
      reads `result['is_system_skill']`, a key an ERROR result lacks: under `--json` a
      missing file ends in an uncaught `KeyError`, and Python exits with status 1. */
  function MainExit(dir: DirState, r: CheckResult, strict: bool, json: bool): (code: nat)
    ensures code <= 2
  {
    if dir != Directory then 1
    else if json && r.Failed? then 1
    else ExitCode(r, strict)
  }

  /** As written, `main` under `--json` never exits 2: a missing file, which the ladder
      would report with 2, exits 1 like a partial sync. */
  lemma {:induction false} JsonErrorExitsOne(dir: DirState, r: CheckResult, strict: bool)
    requires r.Checked? ==> r.status == StatusOf(r.issues, r.warnings)
    ensures MainExit(dir, r, strict, true) != 2
    ensures dir == Directory && r.Failed? ==> MainExit(dir, r, strict, true) == 1 && ExitCode(r, strict) == 2
  {
    ExitCodeMeaning(r, strict);
  }

  /** `main` as intended: an ERROR result is reported in either format (the JSON report
      holding its status and message), and the ladder picks the exit status. */
  function IntendedMainExit(dir: DirState, r: CheckResult, strict: bool, json: bool): (code: nat)
    ensures code <= 2
  {
    if dir != Directory then 1 else ExitCode(r, strict)
  }

  /** As intended, the exit status means the same in both formats: 2 exactly when a file is
      missing, 0 exactly when nothing needs fixing. It differs from `main` as written
      exactly on an ERROR result under `--json`. */
  lemma {:induction false} IntendedMainExitMeaning(dir: DirState, r: CheckResult, strict: bool, json: bool)
    requires r.Checked? ==> r.status == StatusOf(r.issues, r.warnings)
    ensures IntendedMainExit(dir, r, strict, json) == 2 <==> dir == Directory && r.Failed?
    ensures IntendedMainExit(dir, r, strict, json) == 0
            <==> dir == Directory && r.Checked? && |r.issues| == 0 && (!strict || |r.warnings| == 0)
    ensures IntendedMainExit(dir, r, strict, json) != MainExit(dir, r, strict, json)
            <==> dir == Directory && json && r.Failed?
  {
    ExitCodeMeaning(r, strict);
  }

  // ---------------------------------------------------------------------------
  // Recommendations
  // ---------------------------------------------------------------------------

  const ReviewGood := "Review good example markers (\U{2705}) in both versions"
  const ReviewBad := "Review bad example markers (\U{274C}) in both versions"

  function AddTagRecommendations(tags: seq<string>): (r: seq<string>)
    ensures |r| == |tags|
  {
    seq(|tags|, k requires 0 <= k < |tags| => "Add '" + tags[k] + "' tag to references/SKILL.ja.md")
  }

  /** The advice for `en` patterns against `ja`: add the shortfall, or remove the excess. */
  function PatternAdvice(en: nat, ja: nat): seq<string> {
    if en > ja then ["Add " + NatToString(en - ja) + " missing Pattern(s) to references/SKILL.ja.md"]
    else ["Remove " + NatToString(ja - en) + " extra Pattern(s) from references/SKILL.ja.md"]
  }

  const EnsureName := "Ensure 'name' field matches in both versions"
  const EnsureAuthor := "Ensure 'author' field matches in both versions"
  const MissingKey := "Missing in JA: ["

  /** `re.search(r"Missing in JA: \[(.*?)\]", s)` tried from position `i` on: the text
      between a key and the first `]` after it, provided no line break comes between. */
  function MissingGroupFrom(s: string, i: nat): Option<string>
    decreases |s| - i
  {
    match FindFrom(s, MissingKey, i)
    case None => None
    case Some(a) =>
      var b := a + |MissingKey|;
      match FindFrom(s, "]", b)
      case Some(c) => if '\n' !in s[b..c] then Some(s[b..c]) else MissingGroupFrom(s, a + 1)
      case None => MissingGroupFrom(s, a + 1)
  }

  /** The tags branch: the list after "Missing in JA:" is read back out of the message,
      every single quote removed, and split at ", ". */
  function MissingTagRecommendations(message: string): seq<string> {
    if Contains(message, "Missing in JA:") then
      match MissingGroupFrom(message, 0)
      case Some(group) => AddTagRecommendations(SplitOn(RemoveChar(group, '\''), ", "))
      case None => []
    else []
  }

  /** The pattern branch: both numbers are read back out of the message. */
  function PatternRecommendation(message: string): seq<string> {
    match (NumberAfter(message, "EN=", 0), NumberAfter(message, "JA=", 0))
    case (Some(en), Some(ja)) => PatternAdvice(en, ja)
    case _ => []
  }

  /** The branch the loop over `self.issues` takes for one issue. It looks only at the
      message text: tags, pattern count, name and author, tested in that order. */
  function IssueRecommendations(f: Finding): seq<string> {
    var m := Message(f.kind);
    if Contains(Lower(m), "tags mismatch") then MissingTagRecommendations(m)
    else if Contains(m, "Pattern count mismatch") then PatternRecommendation(m)
    else if Contains(Lower(m), "name mismatch") then [EnsureName]
    else if Contains(Lower(m), "author mismatch") then [EnsureAuthor]
    else []
  }

  /** What each kind of issue asks for, read off the finding itself rather than its text. */
  function KindRecommendations(f: Finding): seq<string> {
    match f.kind
    case TagsMismatch(missing, _) => AddTagRecommendations(missing)
    case PatternsMismatch(en, ja) => PatternAdvice(en, ja)
    case NameMismatch(_, _) => [EnsureName]
    case AuthorMismatch(_, _) => [EnsureAuthor]
    case _ => []
  }

  /** The loop over `self.warnings`, which tests the message text. */
  function WarningRecommendations(f: Finding): seq<string> {
    var m := Message(f.kind);
    if Contains(m, "Good examples") || Contains(m, "Bad examples") then
      (if GoodMark in m then [ReviewGood] else [ReviewBad])
    else []
  }

  function AllIssueRecommendations(issues: seq<Finding>): seq<string> {
    if |issues| == 0 then []
    else AllIssueRecommendations(issues[..|issues| - 1]) + IssueRecommendations(issues[|issues| - 1])
  }

  /** One issue more adds its recommendations at the end. */
  lemma {:induction false} IssueRecommendationsSnoc(issues: seq<Finding>, i: nat)
    requires i < |issues|
    ensures AllIssueRecommendations(issues[..i + 1])
            == AllIssueRecommendations(issues[..i]) + IssueRecommendations(issues[i])
  {
    assert issues[..i + 1][..i] == issues[..i];
  }

  /** The loop over the issues in `_generate_recommendations`. */
  method IssueAdvice(issues: seq<Finding>) returns (recommendations: seq<string>)
    ensures recommendations == AllIssueRecommendations(issues)
  {
    recommendations := [];
    for i := 0 to |issues|
      invariant recommendations == AllIssueRecommendations(issues[..i])
    {
      IssueRecommendationsSnoc(issues, i);
      recommendations := recommendations + IssueRecommendations(issues[i]);
    }
    assert issues[..|issues|] == issues;
  }

  /** The loop over the warnings in `_generate_recommendations`. */
  method WarningAdvice(warnings: seq<Finding>) returns (recommendations: seq<string>)
    ensures recommendations == AllWarningRecommendations(warnings)
  {
    recommendations := [];
    for i := 0 to |warnings|
      invariant recommendations == AllWarningRecommendations(warnings[..i])
    {
      WarningRecommendationsSnoc(warnings, i);
      recommendations := recommendations + WarningRecommendations(warnings[i]);
    }
    assert warnings[..|warnings|] == warnings;
  }

  lemma {:induction false} WarningRecommendationsSnoc(warnings: seq<Finding>, i: nat)
    requires i < |warnings|
    ensures AllWarningRecommendations(warnings[..i + 1])
            == AllWarningRecommendations(warnings[..i]) + WarningRecommendations(warnings[i])
  {
    assert warnings[..i + 1][..i] == warnings[..i];
  }

  function AllWarningRecommendations(warnings: seq<Finding>): seq<string> {
    if |warnings| == 0 then []
    else AllWarningRecommendations(warnings[..|warnings| - 1]) + WarningRecommendations(warnings[|warnings| - 1])
  }

  /** The numbers the pattern message prints are the numbers it is read back as. */
  lemma {:induction false} PatternMessageRoundTrip(en: nat, ja: nat)
    ensures NumberAfter(PatternMismatchMessage(en, ja), "EN=", 0) == Some(en)
    ensures NumberAfter(PatternMismatchMessage(en, ja), "JA=", 0) == Some(ja)
  {
    EnCountReadBack(en, ja);
    JaCountReadBack(en, ja);
  }

  lemma {:induction false} EnCountReadBack(en: nat, ja: nat)
    ensures NumberAfter(PatternMismatchMessage(en, ja), "EN=", 0) == Some(en)
  {
    var pre := "Pattern count mismatch: ";
    assert 'E' !in pre;
    assert PatternMismatchMessage(en, ja) == pre + "EN=" + NatToString(en) + (", JA=" + NatToString(ja));
    NumberAfterPrinted(pre, "EN=", en, ", JA=" + NatToString(ja));
  }

  lemma {:induction false} JaCountReadBack(en: nat, ja: nat)
    ensures NumberAfter(PatternMismatchMessage(en, ja), "JA=", 0) == Some(ja)
  {
    var d := NatToString(en);
    var pre := "Pattern count mismatch: EN=" + d + ", ";
    assert 'J' !in pre by {
      assert 'J' !in "Pattern count mismatch: EN=";
      NoCharInDigits(d, 'J');
    }
    assert PatternMismatchMessage(en, ja) == pre + "JA=" + NatToString(ja) + "";
    NumberAfterPrinted(pre, "JA=", ja, "");
  }

  lemma {:induction false} HasPrefix(s: string, p: string)
    requires StartsWith(s, p)
    ensures Contains(s, p)
  {
    assert OccursAt(s, p, 0);
  }

  lemma {:induction false} NoCharInDigits(d: string, c: char)
    requires forall k | 0 <= k < |d| :: IsAsciiDigit(d[k])
    requires !IsAsciiDigit(c)
    ensures c !in d
  {
    forall k | 0 <= k < |d| ensures d[k] != c {
      assert IsAsciiDigit(d[k]);
    }
  }

  /** `p` starts the lower-cased text of `p + rest` when `p` is already lower case. */
  lemma {:induction false} LowerPrefix(p: string, rest: string)
    requires forall k | 0 <= k < |p| :: !IsAsciiUpper(p[k])
    ensures Contains(Lower(p + rest), p)
  {
    assert Lower(p) == p;
    LowerAppend(p, rest);
    assert (p + Lower(rest))[..|p|] == p;
    HasPrefix(Lower(p + rest), p);
  }

  lemma {:induction false} PatternMessageNotTags(en: nat, ja: nat)
    ensures !Contains(Lower(PatternMismatchMessage(en, ja)), "tags mismatch")
  {
    var m := PatternMismatchMessage(en, ja);
    var d := NatToString(en);
    var e := NatToString(ja);
    NoCharInDigits(d, 'g');
    NoCharInDigits(d, 'G');
    NoCharInDigits(e, 'g');
    NoCharInDigits(e, 'G');
    assert m == "Pattern count mismatch: EN=" + d + ", JA=" + e;
    LowerAvoids(m, 'g');
    NotContainsChar(Lower(m), "tags mismatch", 'g');
  }

  lemma {:induction false} PatternMessageIsPattern(en: nat, ja: nat)
    ensures Contains(PatternMismatchMessage(en, ja), "Pattern count mismatch")
  {
    var m := PatternMismatchMessage(en, ja);
    assert m[..22] == "Pattern count mismatch";
    HasPrefix(m, "Pattern count mismatch");
  }

  /** A pattern-count issue with EN=a and JA=b recommends adding a−b patterns when a > b
      and removing b−a otherwise. */
  lemma {:induction false} PatternIssueRecommendation(category: string, en: nat, ja: nat)
    ensures IssueRecommendations(Finding(category, PatternsMismatch(en, ja))) == PatternAdvice(en, ja)
  {
    PatternMessageIs(en, ja);
    PatternBranch(Finding(category, PatternsMismatch(en, ja)), en, ja);
  }

  lemma {:induction false} PatternMessageIs(en: nat, ja: nat)
    ensures Message(PatternsMismatch(en, ja)) == PatternMismatchMessage(en, ja)
  {
  }

  /** Any issue whose message is the pattern-count message lands in the pattern branch. */
  lemma {:induction false} PatternBranch(f: Finding, en: nat, ja: nat)
    requires Message(f.kind) == PatternMismatchMessage(en, ja)
    ensures IssueRecommendations(f) == PatternAdvice(en, ja)
  {
    PatternMessageNotTags(en, ja);
    PatternMessageIsPattern(en, ja);
    PatternMessageRoundTrip(en, ja);
  }

  // Which branch a message lands in. The issue loop tests for the tags, pattern-count and
  // name texts before the one a message was written for, so a name that contains one of
  // them is read as that finding.

  /** A name that does not contain the tags or the pattern-count text. */
  predicate ClearOfEarlierTests(name: string) {
    !Contains(Lower(name), "tags mismatch") && !Contains(name, "Pattern count mismatch")
  }

  /** A tag that `repr` quotes with single quotes, and that holds neither the separator
      nor the bracket the message is read back by. */
  predicate PlainTag(t: string) {
    '\'' !in t && ',' !in t && ']' !in t && '\n' !in t
  }

  /** The issues whose messages are read back as what they report. */
  predicate ReadableIssue(k: Kind) {
    match k
    case NameMismatch(e, j) => ClearOfEarlierTests(e) && ClearOfEarlierTests(j)
    case AuthorMismatch(e, j) =>
      && ClearOfEarlierTests(e) && ClearOfEarlierTests(j)
      && !Contains(Lower(e), "name mismatch") && !Contains(Lower(j), "name mismatch")
    case TagsMismatch(m, x) =>
      if |m| > 0 then forall i | 0 <= i < |m| :: PlainTag(m[i])
      else forall i | 0 <= i < |x| :: ':' !in x[i]
    case DescriptionVariance(_, _) => true
    case SectionCountMismatch(_, _) => true
    case PatternsMismatch(_, _) => true
    case _ => false
  }

  /** The text of a message that quotes two values. */
  function Quoted(a: string, e: string, b: string, j: string): string {
    a + "\"" + e + "\"" + b + "\"" + j + "\""
  }

  /** No occurrence of `p` in a text that quotes two values, when `p` has no quote and is
      in none of the four pieces. */
  lemma {:induction false} QuotedAvoids(a: string, e: string, b: string, j: string, p: string)
    requires |p| > 0 && '"' !in p
    requires !Contains(a, p) && !Contains(e, p) && !Contains(b, p) && !Contains(j, p)
    ensures !Contains(Quoted(a, e, b, j), p)
  {
    var q := "\"";
    ContainsSplit(j, '"', "", p);
    assert j + ['"'] + "" == j + q;
    ContainsSplit(b, '"', j + q, p);
    assert b + ['"'] + (j + q) == b + q + j + q;
    ContainsSplit(e, '"', b + q + j + q, p);
    assert e + ['"'] + (b + q + j + q) == e + q + b + q + j + q;
    ContainsSplit(a, '"', e + q + b + q + j + q, p);
    assert a + ['"'] + (e + q + b + q + j + q) == Quoted(a, e, b, j);
  }

  lemma {:induction false} LowerQuoted(a: string, e: string, b: string, j: string)
    ensures Lower(Quoted(a, e, b, j)) == Quoted(Lower(a), Lower(e), Lower(b), Lower(j))
  {
    var q := "\"";
    assert Lower(q) == q;
    LowerAppend(a + q + e + q + b + q + j, q);
    LowerAppend(a + q + e + q + b + q, j);
    LowerAppend(a + q + e + q + b, q);
    LowerAppend(a + q + e + q, b);
    LowerAppend(a + q + e, q);
    LowerAppend(a + q, e);
    LowerAppend(a, q);
  }

  lemma {:induction false} QuotedLowerAvoids(a: string, e: string, b: string, j: string, p: string)
    requires |p| > 0 && '"' !in p
    requires !Contains(Lower(a), p) && !Contains(Lower(e), p) && !Contains(Lower(b), p) && !Contains(Lower(j), p)
    ensures !Contains(Lower(Quoted(a, e, b, j)), p)
  {
    LowerQuoted(a, e, b, j);
    QuotedAvoids(Lower(a), Lower(e), Lower(b), Lower(j), p);
  }

  /** Neither the tags text nor the pattern-count text is in a quoting message whose
      fixed parts hold neither and whose values are clear of both. */
  lemma {:induction false} QuotedClear(a: string, e: string, b: string, j: string)
    requires ClearOfEarlierTests(e) && ClearOfEarlierTests(j)
    requires !Contains(Lower(a), "tags mismatch") && |b| < 13
    requires 'P' !in a && 'P' !in b
    ensures !Contains(Lower(Quoted(a, e, b, j)), "tags mismatch")
    ensures !Contains(Quoted(a, e, b, j), "Pattern count mismatch")
  {
    QuotedLowerAvoids(a, e, b, j, "tags mismatch");
    NotContainsChar(a, "Pattern count mismatch", 'P');
    NotContainsChar(b, "Pattern count mismatch", 'P');
    QuotedAvoids(a, e, b, j, "Pattern count mismatch");
  }

  lemma {:induction false} NameMessageQuoted(en: string, ja: string)
    ensures Message(NameMismatch(en, ja)) == Quoted("name mismatch: EN=", en, " JA=", ja)
  {
  }

  lemma {:induction false} AuthorMessageQuoted(en: string, ja: string)
    ensures Message(AuthorMismatch(en, ja)) == Quoted("author mismatch: EN=", en, " JA=", ja)
  {
  }

  lemma {:induction false} NameMessageBranch(en: string, ja: string)
    requires ClearOfEarlierTests(en) && ClearOfEarlierTests(ja)
    ensures var m := Message(NameMismatch(en, ja));
            && !Contains(Lower(m), "tags mismatch")
            && !Contains(m, "Pattern count mismatch")
            && Contains(Lower(m), "name mismatch")
  {
    var a := "name mismatch: EN=";
    var b := " JA=";
    var m := Quoted(a, en, b, ja);
    NameMessageQuoted(en, ja);
    assert Lower(a) == "name mismatch: en=";
    CharAbsentAt(Lower(a), "tags mismatch", 0);
    QuotedClear(a, en, b, ja);
    assert m == "name mismatch" + m[13..];
    LowerPrefix("name mismatch", m[13..]);
  }

  /** A name mismatch between names clear of the earlier tests asks for matching names. */
  lemma {:induction false} NameIssueRecommendation(category: string, en: string, ja: string)
    requires ClearOfEarlierTests(en) && ClearOfEarlierTests(ja)
    ensures IssueRecommendations(Finding(category, NameMismatch(en, ja))) == [EnsureName]
  {
    NameMessageBranch(en, ja);
  }

  lemma {:induction false} AuthorMessageEarlier(en: string, ja: string)
    requires ClearOfEarlierTests(en) && ClearOfEarlierTests(ja)
    ensures var m := Quoted("author mismatch: EN=", en, " JA=", ja);
            !Contains(Lower(m), "tags mismatch") && !Contains(m, "Pattern count mismatch")
  {
    var a := "author mismatch: EN=";
    assert Lower(a) == "author mismatch: en=";
    CharAbsentAt(Lower(a), "tags mismatch", 1);
    QuotedClear(a, en, " JA=", ja);
  }

  lemma {:induction false} AuthorMessageOwn(en: string, ja: string)
    requires !Contains(Lower(en), "name mismatch") && !Contains(Lower(ja), "name mismatch")
    ensures var m := Quoted("author mismatch: EN=", en, " JA=", ja);
            !Contains(Lower(m), "name mismatch") && Contains(Lower(m), "author mismatch")
  {
    var a := "author mismatch: EN=";
    var m := Quoted(a, en, " JA=", ja);
    assert Lower(a) == "author mismatch: en=";
    CharAbsentAt(Lower(a), "name mismatch", 0);
    QuotedLowerAvoids(a, en, " JA=", ja, "name mismatch");
    assert m == "author mismatch" + m[15..];
    LowerPrefix("author mismatch", m[15..]);
  }

  lemma {:induction false} AuthorMessageBranch(en: string, ja: string)
    requires ClearOfEarlierTests(en) && ClearOfEarlierTests(ja)
    requires !Contains(Lower(en), "name mismatch") && !Contains(Lower(ja), "name mismatch")
    ensures var m := Message(AuthorMismatch(en, ja));
            && !Contains(Lower(m), "tags mismatch")
            && !Contains(m, "Pattern count mismatch")
            && !Contains(Lower(m), "name mismatch")
            && Contains(Lower(m), "author mismatch")
  {
    AuthorMessageQuoted(en, ja);
    AuthorMessageEarlier(en, ja);
    AuthorMessageOwn(en, ja);
  }

  /** An author mismatch between names clear of the earlier tests asks for matching
      authors. */
  lemma {:induction false} AuthorIssueRecommendation(category: string, en: string, ja: string)
    requires ClearOfEarlierTests(en) && ClearOfEarlierTests(ja)
    requires !Contains(Lower(en), "name mismatch") && !Contains(Lower(ja), "name mismatch")
    ensures IssueRecommendations(Finding(category, AuthorMismatch(en, ja))) == [EnsureAuthor]
  {
    AuthorMessageBranch(en, ja);
  }

  /** The text of a tags message that lists missing tags, up to the bracket closing them. */
  function MissingHead(inner: string): string {
    "tags mismatch: " + MissingKey + inner + "]"
  }

  lemma {:induction false} MissingKeyFound(inner: string, tail: string)
    ensures FindFrom(MissingHead(inner) + tail, MissingKey, 0) == Some(15)
    ensures Contains(MissingHead(inner) + tail, "Missing in JA:")
  {
    var pre := "tags mismatch: ";
    var s := MissingHead(inner) + tail;
    assert s == pre + MissingKey + (inner + "]" + tail);
    assert s[..|pre|] == pre;
    assert 'M' !in pre;
    NoKeyBefore(s, pre, MissingKey);
    assert s[15..31] == MissingKey;
    assert OccursAt(s, MissingKey, 15);
    assert s[15..29] == "Missing in JA:";
    assert OccursAt(s, "Missing in JA:", 15);
  }

  lemma {:induction false} BracketFound(inner: string, tail: string)
    requires ']' !in inner
    ensures FindFrom(MissingHead(inner) + tail, "]", 31) == Some(31 + |inner|)
  {
    var s := MissingHead(inner) + tail;
    var c := 31 + |inner|;
    assert |MissingKey| == 16;
    assert s[31..c] == inner;
    forall k | 31 <= k < c ensures !OccursAt(s, "]", k) {
      assert s[31..c][k - 31] == s[k];
      assert s[k..k + 1][0] == s[k];
    }
    assert s[c..c + 1] == "]";
    assert OccursAt(s, "]", c);
  }

  /** The group the search finds in a message that lists missing tags is that list. */
  lemma {:induction false} MissingGroupRead(inner: string, tail: string)
    requires ']' !in inner && '\n' !in inner
    ensures MissingGroupFrom(MissingHead(inner) + tail, 0) == Some(inner)
    ensures Contains(MissingHead(inner) + tail, "Missing in JA:")
    ensures Contains(Lower(MissingHead(inner) + tail), "tags mismatch")
  {
    var s := MissingHead(inner) + tail;
    MissingKeyFound(inner, tail);
    BracketFound(inner, tail);
    InnerAt(inner, tail);
    GroupAt(s, inner);
    MissingHeadTags(inner, tail);
  }

  lemma {:induction false} InnerAt(inner: string, tail: string)
    ensures |MissingHead(inner) + tail| >= 31 + |inner|
    ensures (MissingHead(inner) + tail)[31..31 + |inner|] == inner
  {
    assert |MissingKey| == 16;
  }

  /** Once the key is found at 15 and the first `]` after it closes `inner`, the search
      yields `inner`. */
  lemma {:induction false} GroupAt(s: string, inner: string)
    requires '\n' !in inner
    requires FindFrom(s, MissingKey, 0) == Some(15)
    requires FindFrom(s, "]", 31) == Some(31 + |inner|)
    requires |s| >= 31 + |inner| && s[31..31 + |inner|] == inner
    ensures MissingGroupFrom(s, 0) == Some(inner)
  {
    assert |MissingKey| == 16;
  }

  lemma {:induction false} MissingHeadTags(inner: string, tail: string)
    ensures Contains(Lower(MissingHead(inner) + tail), "tags mismatch")
  {
    var rest := ": " + MissingKey + inner + "]" + tail;
    assert "tags mismatch: " == "tags mismatch" + ": ";
    assert MissingHead(inner) + tail == "tags mismatch" + rest;
    LowerPrefix("tags mismatch", rest);
  }

  lemma {:induction false} MissingHeadPlain(inner: string)
    ensures |MissingHead(inner)| > 0
    ensures !IsSpace(MissingHead(inner)[0]) && !IsSpace(MissingHead(inner)[|MissingHead(inner)| - 1])
  {
    var head := MissingHead(inner);
    assert head[0] == 't';
    assert head[|head| - 1] == ']';
  }

  lemma {:induction false} MissingMessageRaw(missing: seq<string>, x: string)
    ensures "tags mismatch: " + ("Missing in JA: " + ListRepr(missing) + ". ") + x
            == MissingHead(Join(Reprs(missing), ", ")) + (". " + x)
  {
    var inner := Join(Reprs(missing), ", ");
    assert ListRepr(missing) == "[" + inner + "]";
    assert MissingKey == "Missing in JA: " + "[";
    RawRegroup("tags mismatch: ", "Missing in JA: ", inner, x);
  }

  lemma {:induction false} RawRegroup(h: string, k: string, inner: string, x: string)
    ensures h + (k + ("[" + inner + "]") + ". ") + x == h + (k + "[") + inner + "]" + (". " + x)
  {
  }

  lemma {:induction false} TagsMessage(k: Kind)
    requires k.TagsMismatch?
    ensures Message(k) == Strip(TagsMismatchText(k.missingInJa, k.extraInJa))
  {
    TagsCase(k);
  }

  lemma {:induction false} TagsCase(k: Kind)
    requires k.TagsMismatch?
    ensures Message(k) == TagsMessageOf(k.missingInJa, k.extraInJa)
  {
  }

  lemma {:induction false} ListReprJoin(items: seq<string>)
    ensures ListRepr(items) == "[" + Join(Reprs(items), ", ") + "]"
  {
  }

  lemma {:induction false} TagsTextWithMissing(missing: seq<string>, extra: seq<string>)
    requires |missing| > 0
    ensures TagsMismatchText(missing, extra)
            == "tags mismatch: " + ("Missing in JA: " + ListRepr(missing) + ". ")
               + (if |extra| > 0 then "Extra in JA: " + ListRepr(extra) + "." else "")
  {
  }

  /** The message of a tags finding with missing tags starts with their list. */
  lemma {:induction false} MissingMessage(missing: seq<string>, extra: seq<string>) returns (tail: string)
    requires |missing| > 0
    ensures Message(TagsMismatch(missing, extra)) == MissingHead(Join(Reprs(missing), ", ")) + tail
  {
    var inner := Join(Reprs(missing), ", ");
    var x := if |extra| > 0 then "Extra in JA: " + ListRepr(extra) + "." else "";
    TagsTextWithMissing(missing, extra);
    MissingMessageRaw(missing, x);
    TagsMessage(TagsMismatch(missing, extra));
    MissingHeadPlain(inner);
    tail := StripAfterHead(MissingHead(inner), ". " + x);
  }

  lemma {:induction false} UnquotedRepr(t: string)
    requires '\'' !in t
    ensures RemoveChar(Repr(t), '\'') == t
  {
    assert Repr(t) == "'" + t + "'";
    RemoveCharAppend("'" + t, "'", '\'');
    RemoveCharAppend("'", t, '\'');
    RemoveCharAbsent(t, '\'');
  }

  /** Quoting plain tags and then removing every single quote gives back the tags. */
  lemma {:induction false} UnquotedJoin(items: seq<string>)
    requires forall k | 0 <= k < |items| :: '\'' !in items[k]
    ensures RemoveChar(Join(Reprs(items), ", "), '\'') == Join(items, ", ")
    decreases |items|
  {
    if |items| > 0 {
      var t := items[0];
      UnquotedRepr(t);
      if |items| > 1 {
        var rest := items[1..];
        var reprs := Reprs(items);
        assert reprs[1..] == Reprs(rest);
        assert Join(reprs, ", ") == Repr(t) + ", " + Join(Reprs(rest), ", ");
        forall k | 0 <= k < |rest| ensures '\'' !in rest[k] { assert rest[k] == items[k + 1]; }
        UnquotedJoin(rest);
        RemoveCharAppend(Repr(t) + ", ", Join(Reprs(rest), ", "), '\'');
        RemoveCharAppend(Repr(t), ", ", '\'');
        RemoveCharAbsent(", ", '\'');
      }
    }
  }

  lemma {:induction false} PlainList(missing: seq<string>)
    requires |missing| > 0
    requires forall i | 0 <= i < |missing| :: PlainTag(missing[i])
    ensures ']' !in Join(Reprs(missing), ", ") && '\n' !in Join(Reprs(missing), ", ")
    ensures SplitOn(RemoveChar(Join(Reprs(missing), ", "), '\''), ", ") == missing
  {
    var reprs := Reprs(missing);
    forall k | 0 <= k < |reprs| ensures ']' !in reprs[k] && '\n' !in reprs[k] {
      assert reprs[k] == "'" + missing[k] + "'";
    }
    JoinAvoids(reprs, ", ", ']');
    JoinAvoids(reprs, ", ", '\n');
    UnquotedJoin(missing);
    assert ", "[0] == ',';
    SplitOnJoin(missing, ", ");
  }

  /** An issue whose message has the tags text and lists nothing as missing recommends
      nothing. */
  lemma {:induction false} TagsWithoutList(f: Finding)
    requires Contains(Lower(Message(f.kind)), "tags mismatch")
    requires !Contains(Message(f.kind), "Missing in JA:")
    ensures IssueRecommendations(f) == []
  {
  }

  /** An issue whose message lists missing tags recommends what the list reads back as. */
  lemma {:induction false} TagsWithList(f: Finding, inner: string, tail: string)
    requires Message(f.kind) == MissingHead(inner) + tail
    requires ']' !in inner && '\n' !in inner
    ensures IssueRecommendations(f) == AddTagRecommendations(SplitOn(RemoveChar(inner, '\''), ", "))
  {
    MissingGroupRead(inner, tail);
  }

  /** Tags missing from the Japanese version are each recommended for adding, in order,
      when they are plain: their message reads back as the tags themselves. */
  lemma {:induction false} TagsIssueRecommendation(category: string, missing: seq<string>, extra: seq<string>)
    requires |missing| > 0
    requires forall i | 0 <= i < |missing| :: PlainTag(missing[i])
    ensures IssueRecommendations(Finding(category, TagsMismatch(missing, extra))) == AddTagRecommendations(missing)
  {
    PlainList(missing);
    var tail := MissingMessage(missing, extra);
    TagsWithList(Finding(category, TagsMismatch(missing, extra)), Join(Reprs(missing), ", "), tail);
  }

  lemma {:induction false} NoTagsText()
    ensures TagsMismatchText([], []) == "tags mismatch:" + " "
  {
  }

  lemma {:induction false} NoTagsStrip()
    ensures Strip("tags mismatch:" + " ") == "tags mismatch:"
  {
    var head := "tags mismatch:";
    var tail := StripAfterHead(head, " ");
    var r := RStrip(LStrip(head + " "));
    assert r == head + tail;
    assert !IsSpace(r[|r| - 1]);
    assert tail == [];
  }

  lemma {:induction false} NoTagsHead()
    ensures StartsWith("tags mismatch:", "tags mismatch") && !Contains("tags mismatch:", "Missing in JA:")
  {
    CharAbsentAt("tags mismatch:", "Missing in JA:", 0);
  }

  lemma {:induction false} NoTagsMessage()
    ensures var m := Message(TagsMismatch([], []));
            StartsWith(m, "tags mismatch") && !Contains(m, "Missing in JA:")
  {
    NoTagsText();
    TagsMessage(TagsMismatch([], []));
    NoTagsStrip();
    NoTagsHead();
  }

  lemma {:induction false} TagsTextExtraOnly(extra: seq<string>)
    requires |extra| > 0
    ensures TagsMismatchText([], extra) == "tags mismatch: " + "" + ("Extra in JA: " + ListRepr(extra) + ".")
  {
  }

  lemma {:induction false} ExtraShape(j: string)
    ensures "tags mismatch: " + "" + ("Extra in JA: " + ("[" + j + "]") + ".")
            == ("tags mismatch: " + "Extra in JA: ") + "[" + (j + "].")
  {
  }

  lemma {:induction false} ExtraTextFacts(j: string)
    requires ':' !in j
    ensures var t := ("tags mismatch: " + "Extra in JA: ") + "[" + (j + "].");
            && StartsWith(t, "tags mismatch") && t[|t| - 1] == '.'
            && !Contains(t, "Missing in JA:")
  {
    var key := "Missing in JA:";
    var u := "tags mismatch: " + "Extra in JA: ";
    var v := j + "].";
    NotContainsChar(u, key, 'M');
    NotContainsChar(v, key, ':');
    ContainsSplit(u, '[', v, key);
    assert u + ['['] + v == u + "[" + v;
    assert (u + "[" + v)[..13] == "tags mismatch";
  }

  lemma {:induction false} ExtraOnlyText(extra: seq<string>)
    requires |extra| > 0
    requires forall i | 0 <= i < |extra| :: ':' !in extra[i]
    ensures var t := TagsMismatchText([], extra);
            && StartsWith(t, "tags mismatch") && t[|t| - 1] == '.'
            && !Contains(t, "Missing in JA:")
  {
    var j := Join(Reprs(extra), ", ");
    TagsTextExtraOnly(extra);
    ListReprJoin(extra);
    ExtraShape(j);
    forall k | 0 <= k < |extra| ensures ':' !in Reprs(extra)[k] {
      assert Reprs(extra)[k] == Repr(extra[k]);
    }
    JoinAvoids(Reprs(extra), ", ", ':');
    ExtraTextFacts(j);
  }

  lemma {:induction false} ExtraMessageText(extra: seq<string>)
    requires forall i | 0 <= i < |extra| :: ':' !in extra[i]
    ensures var m := Message(TagsMismatch([], extra));
            StartsWith(m, "tags mismatch") && !Contains(m, "Missing in JA:")
  {
    if |extra| == 0 {
      NoTagsMessage();
    } else {
      ExtraOnlyMessage(extra);
    }
  }

  lemma {:induction false} ExtraOnlyMessage(extra: seq<string>)
    requires |extra| > 0
    requires forall i | 0 <= i < |extra| :: ':' !in extra[i]
    ensures var m := Message(TagsMismatch([], extra));
            StartsWith(m, "tags mismatch") && !Contains(m, "Missing in JA:")
  {
    var t := TagsMismatchText([], extra);
    ExtraOnlyText(extra);
    StripsToItself(t);
    TagsMessage(TagsMismatch([], extra));
  }

  /** A text that starts with `tags mismatch` and ends with a full stop is left alone by `strip()`. */
  lemma {:induction false} StripsToItself(t: string)
    requires |t| > 0 && StartsWith(t, "tags mismatch") && t[|t| - 1] == '.'
    ensures Strip(t) == t
  {
    assert t[..13][0] == 't';
    StripPlain(t, "");
    assert "" + t == t;
  }

  lemma {:induction false} TagsPrefixLower(m: string)
    requires StartsWith(m, "tags mismatch")
    ensures Contains(Lower(m), "tags mismatch")
  {
    assert m == "tags mismatch" + m[13..];
    LowerPrefix("tags mismatch", m[13..]);
  }

  lemma {:induction false} ExtraMessage(extra: seq<string>)
    requires forall i | 0 <= i < |extra| :: ':' !in extra[i]
    ensures var m := Message(TagsMismatch([], extra));
            Contains(Lower(m), "tags mismatch") && !Contains(m, "Missing in JA:")
  {
    ExtraMessageText(extra);
    TagsPrefixLower(Message(TagsMismatch([], extra)));
  }

  /** A tags finding with nothing missing from the Japanese version recommends nothing,
      whatever it lists as extra, as long as no extra tag holds a colon. */
  lemma {:induction false} ExtraTagsRecommendNothing(category: string, extra: seq<string>)
    requires forall i | 0 <= i < |extra| :: ':' !in extra[i]
    ensures IssueRecommendations(Finding(category, TagsMismatch([], extra))) == []
  {
    ExtraMessage(extra);
    TagsWithoutList(Finding(category, TagsMismatch([], extra)));
  }

  lemma {:induction false} DescriptionMessageBranch(en: nat, ja: nat)
    ensures var m := Message(DescriptionVariance(en, ja));
            && !Contains(Lower(m), "tags mismatch") && !Contains(m, "Pattern count mismatch")
            && !Contains(Lower(m), "name mismatch") && !Contains(Lower(m), "author mismatch")
  {
    DescriptionNoM(en, ja);
    NoTestedText(Message(DescriptionVariance(en, ja)));
  }

  /** The description message holds no `m` in either case. */
  lemma {:induction false} DescriptionNoM(en: nat, ja: nat)
    ensures 'm' !in Message(DescriptionVariance(en, ja)) && 'M' !in Message(DescriptionVariance(en, ja))
  {
    DescriptionTextNoM(en, ja);
  }

  lemma {:induction false} DescriptionTextNoM(en: nat, ja: nat)
    ensures 'm' !in DescriptionVarianceText(en, ja) && 'M' !in DescriptionVarianceText(en, ja)
  {
    var head := "description length variance:";
    assert DescriptionVarianceText(en, ja) == head + SectionCounts(en, ja);
    assert 'm' !in head && 'M' !in head;
    CountsNoM(en, ja);
  }

  /** The counts part of a message holds no `m` in either case. */
  lemma {:induction false} CountsNoM(en: nat, ja: nat)
    ensures 'm' !in SectionCounts(en, ja) && 'M' !in SectionCounts(en, ja)
  {
    NoCharInDigits(NatToString(en), 'm');
    NoCharInDigits(NatToString(en), 'M');
    NoCharInDigits(NatToString(ja), 'm');
    NoCharInDigits(NatToString(ja), 'M');
  }

  /** Each of the four texts holds an `m`, so a message without `m` in either case holds
      none of them, lowered or not. */
  lemma {:induction false} NoTestedText(m: string)
    requires 'm' !in m && 'M' !in m
    ensures !Contains(Lower(m), "tags mismatch") && !Contains(m, "Pattern count mismatch")
    ensures !Contains(Lower(m), "name mismatch") && !Contains(Lower(m), "author mismatch")
  {
    LowerAvoids(m, 'm');
    NotContainsChar(Lower(m), "tags mismatch", 'm');
    NotContainsChar(m, "Pattern count mismatch", 'm');
    NotContainsChar(Lower(m), "name mismatch", 'm');
    NotContainsChar(Lower(m), "author mismatch", 'm');
  }

  /** A description-length issue, raised in strict mode, recommends nothing. */
  lemma {:induction false} DescriptionIssueRecommendsNothing(category: string, en: nat, ja: nat)
    ensures IssueRecommendations(Finding(category, DescriptionVariance(en, ja))) == []
  {
    DescriptionMessageBranch(en, ja);
  }

  /** The lower-cased section-count message: the fixed head, a colon, then text with no `m`. */
  lemma {:induction false} SectionMessageLower(en: nat, ja: nat) returns (v: string)
    ensures Lower(Message(SectionCountMismatch(en, ja))) == "section count mismatch" + [':'] + v
    ensures 'm' !in v
    ensures 'P' !in Message(SectionCountMismatch(en, ja))
  {
    var u := "Section count mismatch";
    var w := SectionCounts(en, ja);
    SectionMessageText(en, ja);
    SectionHeadLower();
    LowerColonSplit(u, w);
    SectionCountsAvoid(en, ja);
    v := Lower(w);
  }

  /** The part of the section-count message after its colon. */
  function SectionCounts(en: nat, ja: nat): string {
    " EN=" + NatToString(en) + ", JA=" + NatToString(ja)
  }

  lemma {:induction false} SectionMessageText(en: nat, ja: nat)
    ensures Message(SectionCountMismatch(en, ja)) == "Section count mismatch" + ":" + SectionCounts(en, ja)
  {
  }

  lemma {:induction false} SectionHeadLower()
    ensures Lower("Section count mismatch") == "section count mismatch"
    ensures 'P' !in "Section count mismatch"
  {
  }

  lemma {:induction false} LowerColonSplit(u: string, w: string)
    ensures Lower(u + ":" + w) == Lower(u) + [':'] + Lower(w)
  {
    LowerAppend(u + ":", w);
    LowerAppend(u, ":");
    assert Lower(":") == [':'];
  }

  lemma {:induction false} SectionCountsAvoid(en: nat, ja: nat)
    ensures 'm' !in Lower(SectionCounts(en, ja)) && 'P' !in SectionCounts(en, ja)
  {
    var d := NatToString(en);
    var e := NatToString(ja);
    NoCharInDigits(d, 'm');
    NoCharInDigits(d, 'M');
    NoCharInDigits(e, 'm');
    NoCharInDigits(e, 'M');
    LowerAvoids(SectionCounts(en, ja), 'm');
    NoCharInDigits(d, 'P');
    NoCharInDigits(e, 'P');
  }

  /** The lowered head of the section-count message holds none of the three texts. */
  lemma {:induction false} SectionHeadAvoids()
    ensures !Contains("section count mismatch", "tags mismatch")
    ensures !Contains("section count mismatch", "name mismatch")
    ensures !Contains("section count mismatch", "author mismatch")
  {
    NotContainsChar("section count mismatch", "tags mismatch", 'g');
    SectionHeadNoName();
    SectionHeadNoAuthor();
  }

  lemma {:induction false} SectionHeadNoName()
    ensures !Contains("section count mismatch", "name mismatch")
  {
    CharAbsentAt("section count mismatch", "name mismatch", 1);
  }

  lemma {:induction false} SectionHeadNoAuthor()
    ensures !Contains("section count mismatch", "author mismatch")
  {
    CharAbsentAt("section count mismatch", "author mismatch", 0);
  }

  lemma {:induction false} SectionMessageBranch(en: nat, ja: nat)
    ensures var m := Message(SectionCountMismatch(en, ja));
            && !Contains(Lower(m), "tags mismatch") && !Contains(m, "Pattern count mismatch")
            && !Contains(Lower(m), "name mismatch") && !Contains(Lower(m), "author mismatch")
  {
    var u := "section count mismatch";
    var v := SectionMessageLower(en, ja);
    SectionHeadAvoids();
    NotContainsChar(v, "tags mismatch", 'm');
    NotContainsChar(v, "name mismatch", 'm');
    NotContainsChar(v, "author mismatch", 'm');
    ContainsSplit(u, ':', v, "tags mismatch");
    ContainsSplit(u, ':', v, "name mismatch");
    ContainsSplit(u, ':', v, "author mismatch");
    NotContainsChar(Message(SectionCountMismatch(en, ja)), "Pattern count mismatch", 'P');
  }

  /** A section-count issue recommends nothing. */
  lemma {:induction false} SectionIssueRecommendsNothing(category: string, en: nat, ja: nat)
    ensures IssueRecommendations(Finding(category, SectionCountMismatch(en, ja))) == []
  {
    SectionMessageBranch(en, ja);
  }

  /** Reading the message gives what the finding asks for, for every issue whose names
      and tags stay clear of the texts the reading looks for. */
  lemma {:induction false} IssueRecommendationsAgree(f: Finding)
    requires ReadableIssue(f.kind)
    ensures IssueRecommendations(f) == KindRecommendations(f)
  {
    match f.kind
    case NameMismatch(e, j) => NameIssueRecommendation(f.category, e, j);
    case AuthorMismatch(e, j) => AuthorIssueRecommendation(f.category, e, j);
    case TagsMismatch(m, x) =>
      if |m| > 0 {
        TagsIssueRecommendation(f.category, m, x);
      } else {
        ExtraTagsRecommendNothing(f.category, x);
      }
    case DescriptionVariance(e, j) => DescriptionIssueRecommendsNothing(f.category, e, j);
    case SectionCountMismatch(e, j) => SectionIssueRecommendsNothing(f.category, e, j);
    case PatternsMismatch(e, j) => PatternIssueRecommendation(f.category, e, j);
  }

  lemma {:induction false} QuotedFirst(a: string, e: string, b: string, j: string)
    ensures |Quoted(a, e, b, j)| >= |a| + 1 + |e|
    ensures Quoted(a, e, b, j)[|a| + 1..|a| + 1 + |e|] == e
  {
  }

  function AllKindRecommendations(issues: seq<Finding>): seq<string> {
    if |issues| == 0 then []
    else AllKindRecommendations(issues[..|issues| - 1]) + KindRecommendations(issues[|issues| - 1])
  }

  /** Over a whole list of issues, reading the messages gives what the findings ask for. */
  lemma {:induction false} AllIssueRecommendationsAgree(issues: seq<Finding>)
    requires forall k | 0 <= k < |issues| :: ReadableIssue(issues[k].kind)
    ensures AllIssueRecommendations(issues) == AllKindRecommendations(issues)
    decreases |issues|
  {
    if |issues| > 0 {
      var init := issues[..|issues| - 1];
      forall k | 0 <= k < |init| ensures ReadableIssue(init[k].kind) {
        assert init[k] == issues[k];
      }
      AllIssueRecommendationsAgree(init);
      IssueRecommendationsAgree(issues[|issues| - 1]);
    }
  }

  lemma {:induction false} NameTagsFacts(en: string, ja: string)
    requires Contains(Lower(en), "tags mismatch")
    requires !Contains(en, "Missing in JA:") && !Contains(ja, "Missing in JA:")
    ensures var m := Quoted("name mismatch: EN=", en, " JA=", ja);
            Contains(Lower(m), "tags mismatch") && !Contains(m, "Missing in JA:")
  {
    var a := "name mismatch: EN=";
    var b := " JA=";
    var m := Quoted(a, en, b, ja);
    LowerQuoted(a, en, b, ja);
    QuotedFirst(Lower(a), Lower(en), Lower(b), Lower(ja));
    ContainsSlice(Lower(m), |a| + 1, |a| + 1 + |en|, "tags mismatch");
    var key := "Missing in JA:";
    CharAbsentAt(a, key, 11);
    QuotedAvoids(a, en, b, ja, key);
  }

  /** A name mismatch whose English name contains the tags text is read as a tags finding
      and recommends nothing. */
  lemma {:induction false} NameWithTagsText(category: string, en: string, ja: string)
    requires Contains(Lower(en), "tags mismatch")
    requires !Contains(en, "Missing in JA:") && !Contains(ja, "Missing in JA:")
    ensures IssueRecommendations(Finding(category, NameMismatch(en, ja))) == []
  {
    NameMessageQuoted(en, ja);
    NameTagsFacts(en, ja);
    TagsWithoutList(Finding(category, NameMismatch(en, ja)));
  }

  /** A name that contains "Tags Mismatch" is taken for a tags finding and gets no
      recommendation, where a name mismatch asks for matching names. */
  lemma {:induction false} NameReadAsTags()
    ensures var f := Finding("frontmatter", NameMismatch("Tags Mismatch Helper", "X"));
            IssueRecommendations(f) == [] && KindRecommendations(f) == [EnsureName]
  {
    var e := "Tags Mismatch Helper";
    assert Lower(e)[..13] == "tags mismatch";
    HasPrefix(Lower(e), "tags mismatch");
    NotContainsChar(e, "Missing in JA:", 'J');
    NameWithTagsText("frontmatter", e, "X");
  }

  lemma {:induction false} RemoveOneQuote(x: string, y: string)
    requires '\'' !in x && '\'' !in y
    ensures RemoveChar(x + "'" + y, '\'') == x + y
  {
    var q := "'";
    assert RemoveChar(q, '\'') == [];
    RemoveCharAbsent(x, '\'');
    RemoveCharAbsent(y, '\'');
    RemoveCharAppend(x + q, y, '\'');
    RemoveCharAppend(x, q, '\'');
    assert RemoveChar(x + q, '\'') == x;
  }

  lemma {:induction false} QuotedTagGroup(t: string)
    requires '"' !in t && ',' !in t
    ensures var g := RemoveChar("\"" + t + "\"", '\'');
            g == "\"" + RemoveChar(t, '\'') + "\"" && SplitOn(g, ", ") == [g]
  {
    var q := "\"";
    RemoveCharAppend(q + t, q, '\'');
    RemoveCharAppend(q, t, '\'');
    RemoveCharAbsent(q, '\'');
    var g := q + RemoveChar(t, '\'') + q;
    RemoveCharKeepsOut(t, '\'', ',');
    assert ',' !in g;
    NotContainsChar(g, ", ", ',');
    assert Find(g, ", ") == None;
  }

  lemma {:induction false} QuotedRepr(t: string)
    requires '\'' in t && '"' !in t
    ensures Join(Reprs([t]), ", ") == "\"" + t + "\""
  {
    assert Repr(t) == "\"" + t + "\"";
    assert Reprs([t]) == [Repr(t)];
  }

  /** The reading of the list printed for one such tag: the quotes stay, the apostrophes go. */
  lemma {:induction false} QuotedList(t: string)
    requires '\'' in t && '"' !in t && ',' !in t && ']' !in t && '\n' !in t
    ensures ']' !in Join(Reprs([t]), ", ") && '\n' !in Join(Reprs([t]), ", ")
    ensures SplitOn(RemoveChar(Join(Reprs([t]), ", "), '\''), ", ") == ["\"" + RemoveChar(t, '\'') + "\""]
  {
    QuotedRepr(t);
    QuotedTagGroup(t);
  }

  /** A missing tag with an apostrophe and no double quote is printed in double quotes,
      which the reading keeps while it drops the apostrophe. */
  lemma {:induction false} ApostropheTagRecommendation(category: string, t: string, extra: seq<string>)
    requires '\'' in t && '"' !in t && ',' !in t && ']' !in t && '\n' !in t
    ensures IssueRecommendations(Finding(category, TagsMismatch([t], extra)))
            == AddTagRecommendations(["\"" + RemoveChar(t, '\'') + "\""])
  {
    QuotedList(t);
    var tail := MissingMessage([t], extra);
    TagsWithList(Finding(category, TagsMismatch([t], extra)), Join(Reprs([t]), ", "), tail);
  }

  /** Recommendations for two tags that start differently differ. */
  lemma {:induction false} AddTagDiffers(a: string, b: string)
    requires |a| > 0 && |b| > 0 && a[0] != b[0]
    ensures AddTagRecommendations([a]) != AddTagRecommendations([b])
  {
    assert AddTagRecommendations([a])[0][5] == a[0];
    assert AddTagRecommendations([b])[0][5] == b[0];
  }

  /** So such a tag is never recommended under its own name: the advice differs from the
      one the tags check calls for. */
  lemma {:induction false} ApostropheTagMisread(category: string, t: string, extra: seq<string>)
    requires '\'' in t && '"' !in t && ',' !in t && ']' !in t && '\n' !in t
    ensures IssueRecommendations(Finding(category, TagsMismatch([t], extra)))
            != KindRecommendations(Finding(category, TagsMismatch([t], extra)))
  {
    var f := Finding(category, TagsMismatch([t], extra));
    ApostropheTagRecommendation(category, t, extra);
    AddTagDiffers("\"" + RemoveChar(t, '\'') + "\"", t);
    KindTags(f);
  }

  lemma {:induction false} KindTags(f: Finding)
    requires f.kind.TagsMismatch?
    ensures KindRecommendations(f) == AddTagRecommendations(f.kind.missingInJa)
  {
  }

  /** For the tag `don't` the recommended name is `"dont"`. */
  lemma {:induction false} ApostropheRemoved()
    ensures '\'' in "don't" && '"' !in "don't" && ',' !in "don't" && ']' !in "don't" && '\n' !in "don't"
    ensures "\"" + RemoveChar("don't", '\'') + "\"" == "\"dont\""
  {
    assert "don't"[3] == '\'';
    assert "don't" == "don" + "'" + "t";
    RemoveOneQuote("don", "t");
  }

  /** Each marker warning recommends reviewing its own marker. */
  lemma {:induction false} ExampleWarningRecommendations(en: nat, ja: nat)
    ensures WarningRecommendations(Finding("examples", GoodExamplesVariance(en, ja))) == [ReviewGood]
    ensures WarningRecommendations(Finding("examples", BadExamplesVariance(en, ja))) == [ReviewBad]
  {
    GoodWarning(en, ja);
    BadWarning(en, ja);
  }

  lemma {:induction false} GoodWarning(en: nat, ja: nat)
    ensures WarningRecommendations(Finding("examples", GoodExamplesVariance(en, ja))) == [ReviewGood]
  {
    var good := GoodVarianceText(en, ja);
    assert Message(GoodExamplesVariance(en, ja)) == good;
    assert good[..13] == "Good examples";
    HasPrefix(good, "Good examples");
    assert good[15] == GoodMark;
  }

  lemma {:induction false} BadWarning(en: nat, ja: nat)
    ensures WarningRecommendations(Finding("examples", BadExamplesVariance(en, ja))) == [ReviewBad]
  {
    var bad := BadVarianceText(en, ja);
    assert Message(BadExamplesVariance(en, ja)) == bad;
    assert bad[..12] == "Bad examples";
    HasPrefix(bad, "Bad examples");
    BadTextNoGoodMark(en, ja);
  }

  /** The bad-examples warning never holds the good-examples marker. */
  lemma {:induction false} BadTextNoGoodMark(en: nat, ja: nat)
    ensures GoodMark !in BadVarianceText(en, ja)
  {
    NoCharInDigits(NatToString(en), GoodMark);
    NoCharInDigits(NatToString(ja), GoodMark);
    NoCharInDigits(NatToString(Distance(en, ja)), GoodMark);
    assert GoodMark !in "Bad examples (\U{274C}): EN=";
    assert GoodMark !in ", JA=";
    assert GoodMark !in " (variance: ";
    assert GoodMark !in ")";
  }

  // ---------------------------------------------------------------------------
  // The checker
  // ---------------------------------------------------------------------------

  const SystemAuthor := "RyoMurakami1983"

  class SyncChecker {
    const skillDir: string
    const strict: bool
    const en: SkillDocument
    const ja: SkillDocument
    var issues: seq<Finding>
    var warnings: seq<Finding>
    var successes: seq<Finding>

    /** `SyncChecker(skill_dir, strict)` over the two documents it opened. */
    constructor (skillDir: string, strict: bool, en: SkillDocument, ja: SkillDocument)
      ensures this.skillDir == skillDir && this.strict == strict && this.en == en && this.ja == ja
      ensures issues == [] && warnings == [] && successes == []
    {
      this.skillDir := skillDir;
      this.strict := strict;
      this.en := en;
      this.ja := ja;
      issues := [];
      warnings := [];
      successes := [];
    }

    /** The lists hold what they held before, followed by `gs` sorted by severity. */
    ghost predicate Appended(oldIssues: seq<Finding>, oldWarnings: seq<Finding>, oldSuccesses: seq<Finding>,
                             gs: seq<Graded>)
      reads this
    {
      && issues == oldIssues + Only(gs, Issue)
      && warnings == oldWarnings + Only(gs, Warning)
      && successes == oldSuccesses + Only(gs, Success)
    }

    /** `self.issues.append(…)`, `self.warnings.append(…)` or `self.successes.append(…)`. */
    method Add(g: Graded)
      modifies this`issues, this`warnings, this`successes
      ensures Appended(old(issues), old(warnings), old(successes), [g])
    {
      assert [g][..0] == [];
      match g.severity
      case Issue => issues := issues + [g.finding];
      case Warning => warnings := warnings + [g.finding];
      case Success => successes := successes + [g.finding];
    }

    /** Appending `gs` and then `hs` appends `gs + hs`. */
    lemma AppendedTwice(i0: seq<Finding>, w0: seq<Finding>, s0: seq<Finding>, gs: seq<Graded>,
                        i1: seq<Finding>, w1: seq<Finding>, s1: seq<Finding>, hs: seq<Graded>)
      requires i1 == i0 + Only(gs, Issue) && w1 == w0 + Only(gs, Warning) && s1 == s0 + Only(gs, Success)
      requires Appended(i1, w1, s1, hs)
      ensures Appended(i0, w0, s0, gs + hs)
    {
      OnlyAppend(gs, hs, Issue);
      OnlyAppend(gs, hs, Warning);
      OnlyAppend(gs, hs, Success);
      AppendAssoc(i0, Only(gs, Issue), Only(hs, Issue));
      AppendAssoc(w0, Only(gs, Warning), Only(hs, Warning));
      AppendAssoc(s0, Only(gs, Success), Only(hs, Success));
    }

    /** `_check_system_skill` */
    function IsSystemSkill(): bool
      reads this, en
    {
      en.frontmatter.author.GetOr("") == SystemAuthor
    }

    method CheckFrontmatter()
      modifies this`issues, this`warnings, this`successes
      ensures Appended(old(issues), old(warnings), old(successes),
                       FrontmatterFindings(en.frontmatter, ja.frontmatter, strict))
    {
      var gs := FrontmatterFindings(en.frontmatter, ja.frontmatter, strict);
      for k := 0 to 4
        invariant Appended(old(issues), old(warnings), old(successes), gs[..k])
      {
        ghost var (i1, w1, s1) := (issues, warnings, successes);
        Add(gs[k]);
        AppendedTwice(old(issues), old(warnings), old(successes), gs[..k], i1, w1, s1, [gs[k]]);
        assert gs[..k] + [gs[k]] == gs[..k + 1];
      }
      assert gs[..4] == gs;
    }

    /** `_check_sections`: one success for identical title lists; otherwise an issue when
        the counts differ, then the zip loop. */
    method CheckSections()
      modifies this`issues, this`warnings, this`successes
      ensures Appended(old(issues), old(warnings), old(successes), SectionFindings(en.sections, ja.sections))
    {
      var enSections := en.sections;
      var jaSections := ja.sections;
      if enSections == jaSections {
        Add(Graded(Success, Finding("sections", SectionsMatch(|enSections|, |jaSections|))));
      } else {
        var head: seq<Graded> := [];
        if |enSections| != |jaSections| {
          head := [Graded(Issue, Finding("sections", SectionCountMismatch(|enSections|, |jaSections|)))];
          Add(head[0]);
          assert [head[0]] == head;
        } else {
          assert Only([], Issue) == [] && Only([], Warning) == [] && Only([], Success) == [];
        }
        ghost var (i1, w1, s1) := (issues, warnings, successes);
        CompareTitles(enSections, jaSections);
        AppendedTwice(old(issues), old(warnings), old(successes), head, i1, w1, s1,
                      TitleDifferences(enSections, jaSections, Min(|enSections|, |jaSections|)));
      }
    }

    /** The zip loop of `_check_sections`: a warning for each position whose titles differ. */
    method CompareTitles(enSections: seq<string>, jaSections: seq<string>)
      modifies this`issues, this`warnings, this`successes
      ensures Appended(old(issues), old(warnings), old(successes),
                       TitleDifferences(enSections, jaSections, Min(|enSections|, |jaSections|)))
    {
      var n := Min(|enSections|, |jaSections|);
      assert Only([], Issue) == [] && Only([], Warning) == [] && Only([], Success) == [];
      for i := 0 to n
        invariant Appended(old(issues), old(warnings), old(successes), TitleDifferences(enSections, jaSections, i))
      {
        ghost var (i1, w1, s1) := (issues, warnings, successes);
        ghost var before := TitleDifferences(enSections, jaSections, i);
        if enSections[i] != jaSections[i] {
          var g := Graded(Warning, Finding("sections", SectionDiffers(i + 1, enSections[i], jaSections[i])));
          Add(g);
          AppendedTwice(old(issues), old(warnings), old(successes), before, i1, w1, s1, [g]);
          assert before + [g] == TitleDifferences(enSections, jaSections, i + 1);
        } else {
          assert before == TitleDifferences(enSections, jaSections, i + 1);
        }
      }
    }

    method CheckPatterns()
      modifies this`issues, this`warnings, this`successes
      ensures Appended(old(issues), old(warnings), old(successes), PatternFindings(en.patternCount, ja.patternCount))
    {
      if en.patternCount == ja.patternCount {
        Add(Graded(Success, Finding("patterns", PatternsMatch(en.patternCount, ja.patternCount))));
      } else {
        Add(Graded(Issue, Finding("patterns", PatternsMismatch(en.patternCount, ja.patternCount))));
      }
    }

    method CheckExamples()
      modifies this`issues, this`warnings, this`successes
      ensures Appended(old(issues), old(warnings), old(successes),
                       ExampleFindings(en.goodExamples, ja.goodExamples, en.badExamples, ja.badExamples))
    {
      var gs := ExampleFindings(en.goodExamples, ja.goodExamples, en.badExamples, ja.badExamples);
      Add(gs[0]);
      ghost var (i1, w1, s1) := (issues, warnings, successes);
      Add(gs[1]);
      AppendedTwice(old(issues), old(warnings), old(successes), [gs[0]], i1, w1, s1, [gs[1]]);
      assert [gs[0]] + [gs[1]] == gs;
    }

    method CheckTables()
      modifies this`issues, this`warnings, this`successes
      ensures Appended(old(issues), old(warnings), old(successes), TableFindings(|en.tables|, |ja.tables|))
    {
      if |en.tables| == |ja.tables| {
        Add(Graded(Success, Finding("tables", TablesMatch(|en.tables|, |ja.tables|))));
      } else {
        Add(Graded(Warning, Finding("tables", TablesDiffer(|en.tables|, |ja.tables|))));
      }
    }

    /** `_get_overall_status` */
    function OverallStatus(): Status
      reads this
    {
      StatusOf(issues, warnings)
    }

    /** `_generate_recommendations` */
    method GenerateRecommendations() returns (recommendations: seq<string>)
      ensures recommendations == AllIssueRecommendations(issues) + AllWarningRecommendations(warnings)
    {
      var fromIssues := IssueAdvice(issues);
      var fromWarnings := WarningAdvice(warnings);
      recommendations := fromIssues + fromWarnings;
    }

    /** What `check()` compares of one document. */
    function View(doc: SkillDocument): DocView
      reads doc
    {
      DocView(doc.frontmatter, doc.sections, doc.patternCount, doc.goodExamples, doc.badExamples, |doc.tables|)
    }

    /** `check()`: an error when a file is missing; otherwise every check appends its
        findings and the result reports the lists, the status and the recommendations. */
    method Check() returns (result: CheckResult)
      modifies this`issues, this`warnings, this`successes
      ensures !en.present ==> result == Failed("SKILL.md not found in " + skillDir)
      ensures en.present && !ja.present ==> result == Failed("references/SKILL.ja.md not found in " + skillDir)
      ensures !(en.present && ja.present) ==> issues == old(issues) && warnings == old(warnings)
                                              && successes == old(successes)
      ensures en.present && ja.present ==>
                && Appended(old(issues), old(warnings), old(successes), AllFindings(View(en), View(ja), strict))
                && result == Checked(StatusOf(issues, warnings), IsSystemSkill(), issues, warnings, successes,
                                     AllIssueRecommendations(issues) + AllWarningRecommendations(warnings))
    {
      if !en.present {
        return Failed("SKILL.md not found in " + skillDir);
      }
      if !ja.present {
        return Failed("references/SKILL.ja.md not found in " + skillDir);
      }
      var isSystemSkill := IsSystemSkill();
      ghost var e := View(en);
      ghost var j := View(ja);
      ghost var (i0, w0, s0) := (issues, warnings, successes);
      CheckFrontmatter();
      ghost var (i1, w1, s1) := (issues, warnings, successes);
      CheckSections();
      AppendedTwice(i0, w0, s0, FrontmatterFindings(e.frontmatter, j.frontmatter, strict),
                    i1, w1, s1, SectionFindings(e.sections, j.sections));
      ghost var gs := FrontmatterFindings(e.frontmatter, j.frontmatter, strict) + SectionFindings(e.sections, j.sections);
      ghost var (i2, w2, s2) := (issues, warnings, successes);
      CheckPatterns();
      AppendedTwice(i0, w0, s0, gs, i2, w2, s2, PatternFindings(e.patternCount, j.patternCount));
      gs := gs + PatternFindings(e.patternCount, j.patternCount);
      ghost var (i3, w3, s3) := (issues, warnings, successes);
      CheckExamples();
      AppendedTwice(i0, w0, s0, gs, i3, w3, s3, ExampleFindings(e.goodExamples, j.goodExamples, e.badExamples, j.badExamples));
      gs := gs + ExampleFindings(e.goodExamples, j.goodExamples, e.badExamples, j.badExamples);
      ghost var (i4, w4, s4) := (issues, warnings, successes);
      CheckTables();
      AppendedTwice(i0, w0, s0, gs, i4, w4, s4, TableFindings(e.tableCount, j.tableCount));
      gs := gs + TableFindings(e.tableCount, j.tableCount);
      assert gs == AllFindings(e, j, strict);
      var recommendations := GenerateRecommendations();
      result := Checked(OverallStatus(), isSystemSkill, issues, warnings, successes, recommendations);
    }
  }
}
