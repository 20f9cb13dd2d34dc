/** The gateway's compliance service: the compliance agent's issues for one
    file, classified and scored for the dashboard, and the metrics
    aggregated over several files. */
module ComplianceService {
  import opened Wrappers
  import opened Text
  import opened Seqs
  import opened Tally

  /** A raw issue as the compliance agent writes it; every field may be
      missing. */
  datatype RawIssue = RawIssue(kind: Option<string>, line: Option<int>, lineNumber: Option<int>,
                               message: Option<string>, description: Option<string>,
                               suggestion: Option<string>)

  datatype RawSuggestion = RawSuggestion(line: Option<int>, suggestion: Option<string>, message: Option<string>)

  datatype RawAnalysis = RawAnalysis(fileName: Option<string>, file: Option<string>, agent: Option<string>,
                                     issues: Option<seq<RawIssue>>, suggestions: Option<seq<RawSuggestion>>)

  datatype Level = Critical | High | Medium | Low

  datatype Category = Naming | Style | Documentation | Security | Performance | Other

  /** `a || b` on strings. */
  function OrElse(o: Option<string>, fallback: string): string
  {
    if o.Some? && o.value != "" then o.value else fallback
  }

  /** `a || b` on numbers. */
  function OrNumber(o: Option<int>, fallback: int): int
  {
    if o.Some? && o.value != 0 then o.value else fallback
  }

  /** A type that is present and mentions `word`. */
  predicate Mentions(kind: Option<string>, word: string)
  {
    kind.Some? && kind.value != "" && Contains(kind.value, word)
  }

  /** Naming issues are medium and in the naming category, formatting
      issues low and in the style category, all others medium and other. */
  function Classify(kind: Option<string>): (Level, Category)
  {
    if Mentions(kind, "Naming") then (Medium, Naming)
    else if Mentions(kind, "Formatting") then (Low, Style)
    else (Medium, Other)
  }

  /** An issue as the dashboard receives it, with the raw issue kept. */
  datatype Issue = Issue(kind: string, severity: Level, lineNumber: int, description: string,
                         recommendation: string, rule: string, category: Category, original: RawIssue)

  /** The callback of `rawAnalysis.issues.map`. */
  function ProcessIssue(raw: RawIssue): (r: Issue)
    ensures r.recommendation != ""
  {
    var (severity, category) := Classify(raw.kind);
    Issue(OrElse(raw.kind, "Compliance Issue"), severity,
          OrNumber(raw.line, OrNumber(raw.lineNumber, 0)),
          OrElse(raw.message, OrElse(raw.description, "No description")),
          OrElse(raw.suggestion, "Fix " + OrElse(raw.kind, "compliance issue")),
          OrElse(raw.kind, "ComplianceRule"), category, raw)
  }

  /** The (severity, category) pairs the classification can assign. */
  predicate Classified(p: Issue)
  {
    && (p.category == Naming || p.category == Style || p.category == Other)
    && (p.severity == Low <==> p.category == Style)
    && (p.severity == Medium <==> p.category != Style)
  }

  /** Only three (severity, category) pairs are ever assigned, and formatting
      issues that are not naming issues are the low ones. */
  lemma ProcessedClassified(raw: RawIssue)
    ensures Classified(ProcessIssue(raw))
    ensures ProcessIssue(raw).category == Style <==> !Mentions(raw.kind, "Naming") && Mentions(raw.kind, "Formatting")
  {
  }

  function ProcessIssues(rs: seq<RawIssue>): (ps: seq<Issue>)
    ensures |ps| == |rs|
    ensures forall k :: 0 <= k < |rs| ==> ps[k] == ProcessIssue(rs[k])
  {
    if rs == [] then [] else ProcessIssues(rs[..|rs| - 1]) + [ProcessIssue(rs[|rs| - 1])]
  }

  datatype Suggestion = Suggestion(line: int, text: string)

  function ProcessSuggestion(s: RawSuggestion): Suggestion
  {
    Suggestion(OrNumber(s.line, 0), OrElse(s.suggestion, OrElse(s.message, "No suggestion")))
  }

  function ProcessSuggestions(ss: seq<RawSuggestion>): (r: seq<Suggestion>)
    ensures |r| == |ss|
  {
    if ss == [] then [] else ProcessSuggestions(ss[..|ss| - 1]) + [ProcessSuggestion(ss[|ss| - 1])]
  }

  function LevelCount(ps: seq<Issue>, l: Level): (n: nat)
    ensures n <= |ps|
  {
    if ps == [] then 0 else LevelCount(ps[..|ps| - 1], l) + (if ps[|ps| - 1].severity == l then 1 else 0)
  }

  function CategoryCount(ps: seq<Issue>, c: Category): (n: nat)
    ensures n <= |ps|
  {
    if ps == [] then 0 else CategoryCount(ps[..|ps| - 1], c) + (if ps[|ps| - 1].category == c then 1 else 0)
  }

  datatype SeveritySummary = SeveritySummary(critical: nat, high: nat, medium: nat, low: nat)

  datatype Categories = Categories(naming: nat, style: nat, documentation: nat, security: nat,
                                   performance: nat, other: nat)

  function Summarize(ps: seq<Issue>): SeveritySummary
  {
    SeveritySummary(LevelCount(ps, Critical), LevelCount(ps, High), LevelCount(ps, Medium), LevelCount(ps, Low))
  }

  function Categorize(ps: seq<Issue>): Categories
  {
    Categories(CategoryCount(ps, Naming), CategoryCount(ps, Style), CategoryCount(ps, Documentation),
               CategoryCount(ps, Security), CategoryCount(ps, Performance), CategoryCount(ps, Other))
  }

  /** `critical * 5 + high * 3 + medium * 2 + low`. */
  function Weight(s: SeveritySummary): nat
  {
    s.critical * 5 + s.high * 3 + s.medium * 2 + s.low
  }

  /** `Math.max(0, 100 - weight * 0.5)`. */
  function Score(weight: nat): (r: real)
    ensures 0.0 <= r <= 100.0
    ensures r == 100.0 <==> weight == 0
  {
    var x := 100.0 - weight as real * 0.5;
    if x < 0.0 then 0.0 else x
  }

  /** The score never rises as the weight grows. */
  lemma ScoreMonotone(a: nat, b: nat)
    requires a <= b
    ensures Score(b) <= Score(a)
  {
  }

  /** The issues' recommendations that are not empty, in order. */
  function Recommendations(ps: seq<Issue>): (r: seq<string>)
    ensures |r| <= |ps|
  {
    if ps == [] then []
    else
      var rest := Recommendations(ps[..|ps| - 1]);
      if ps[|ps| - 1].recommendation != "" then rest + [ps[|ps| - 1].recommendation] else rest
  }

  /** With every recommendation present, none is skipped. */
  lemma {:induction false} EveryRecommendation(ps: seq<Issue>)
    requires forall k :: 0 <= k < |ps| ==> ps[k].recommendation != ""
    ensures |Recommendations(ps)| == |ps|
    ensures forall k :: 0 <= k < |ps| ==> Recommendations(ps)[k] == ps[k].recommendation
  {
    if ps != [] {
      EveryRecommendation(ps[..|ps| - 1]);
    }
  }

  /** The distinct recommendations are exactly those of the issues. */
  lemma RecommendationsCover(ps: seq<Issue>)
    requires forall k :: 0 <= k < |ps| ==> ps[k].recommendation != ""
    ensures forall k :: 0 <= k < |ps| ==> ps[k].recommendation in Distinct(Recommendations(ps))
    ensures forall r :: r in Distinct(Recommendations(ps)) ==>
              exists k :: 0 <= k < |ps| && ps[k].recommendation == r
  {
    EveryRecommendation(ps);
    var recs := Recommendations(ps);
    forall k | 0 <= k < |ps|
      ensures ps[k].recommendation in Distinct(recs)
    {
      assert recs[k] == ps[k].recommendation;
    }
    forall r | r in Distinct(recs)
      ensures exists k :: 0 <= k < |ps| && ps[k].recommendation == r
    {
      var k :| 0 <= k < |recs| && recs[k] == r;
      assert ps[k].recommendation == r;
    }
  }

  /** The loop adding each issue's recommendation to a set. */
  method CollectRecommendations(ps: seq<Issue>) returns (recs: seq<string>)
    ensures recs == Distinct(Recommendations(ps))
  {
    recs := [];
    for i := 0 to |ps|
      invariant recs == Distinct(Recommendations(ps[..i]))
    {
      assert ps[..i + 1][..i] == ps[..i];
      var rec := ps[i].recommendation;
      if rec != "" && rec !in recs {
        recs := recs + [rec];
      }
    }
    assert ps[..|ps|] == ps;
  }

  const Standards: seq<string> := ["Java Coding Standards", "PEP8 (snake_case)"]

  datatype Analysis = Analysis(fileName: string, totalIssues: nat, issues: seq<Issue>,
                               suggestions: seq<Suggestion>, complianceScore: real,
                               standards: seq<string>, agent: string,
                               severitySummary: SeveritySummary, issueCategories: Categories,
                               recommendations: seq<string>)

  /** What `processComplianceAnalysis` returns, stated on whole sequences. */
  function Analyze(raw: RawAnalysis): Analysis
  {
    var rs := if raw.issues.Some? then raw.issues.value else [];
    var ps := ProcessIssues(rs);
    var summary := Summarize(ps);
    Analysis(OrElse(raw.fileName, OrElse(raw.file, "unknown.java")), |rs|, ps,
             if raw.suggestions.Some? then ProcessSuggestions(raw.suggestions.value) else [],
             Score(Weight(summary)), Standards, OrElse(raw.agent, "ComplianceAgent"),
             summary, Categorize(ps), Distinct(Recommendations(ps)))
  }

  /** `processComplianceAnalysis`. */
  method ProcessComplianceAnalysis(raw: RawAnalysis) returns (a: Analysis)
    ensures a == Analyze(raw)
  {
    var issues: seq<Issue> := [];
    var total := 0;
    if raw.issues.Some? {
      issues := ProcessIssues(raw.issues.value);
      total := |raw.issues.value|;
    }
    var suggestions: seq<Suggestion> := [];
    if raw.suggestions.Some? {
      suggestions := ProcessSuggestions(raw.suggestions.value);
    }
    var summary := Summarize(issues);
    var recs := CollectRecommendations(issues);
    a := Analysis(OrElse(raw.fileName, OrElse(raw.file, "unknown.java")), total, issues, suggestions,
                  Score(Weight(summary)), Standards, OrElse(raw.agent, "ComplianceAgent"),
                  summary, Categorize(issues), recs);
  }

  /** Classified issues are medium or low: medium for the naming and other
      categories, low for the style one. */
  lemma {:induction false} LevelSplit(ps: seq<Issue>)
    requires forall k :: 0 <= k < |ps| ==> Classified(ps[k])
    ensures LevelCount(ps, Critical) == 0 && LevelCount(ps, High) == 0
    ensures LevelCount(ps, Medium) == CategoryCount(ps, Naming) + CategoryCount(ps, Other)
    ensures LevelCount(ps, Low) == CategoryCount(ps, Style)
  {
    if ps != [] {
      LevelSplit(ps[..|ps| - 1]);
    }
  }

  /** Classified issues fall in the naming, style and other categories. */
  lemma {:induction false} CategorySplit(ps: seq<Issue>)
    requires forall k :: 0 <= k < |ps| ==> Classified(ps[k])
    ensures CategoryCount(ps, Documentation) == 0 && CategoryCount(ps, Security) == 0
    ensures CategoryCount(ps, Performance) == 0
    ensures CategoryCount(ps, Naming) + CategoryCount(ps, Style) + CategoryCount(ps, Other) == |ps|
  {
    if ps != [] {
      CategorySplit(ps[..|ps| - 1]);
    }
  }

  lemma AllClassified(rs: seq<RawIssue>)
    ensures forall k :: 0 <= k < |rs| ==> Classified(ProcessIssues(rs)[k])
  {
    forall k | 0 <= k < |rs|
      ensures Classified(ProcessIssues(rs)[k])
    {
      ProcessedClassified(rs[k]);
    }
  }

  /** No compliance issue is critical or high; the naming, style and other
      categories account for every issue, and the score is 100 exactly when
      there are no issues. */
  lemma AnalysisCounts(raw: RawAnalysis)
    ensures var a := Analyze(raw);
            && a.totalIssues == |a.issues|
            && a.severitySummary.critical == 0 && a.severitySummary.high == 0
            && a.severitySummary.medium + a.severitySummary.low == a.totalIssues
            && a.issueCategories.naming + a.issueCategories.style + a.issueCategories.other == a.totalIssues
            && a.issueCategories.documentation == 0 && a.issueCategories.security == 0
            && a.issueCategories.performance == 0
            && (a.complianceScore == 100.0 <==> a.totalIssues == 0)
  {
    var rs := if raw.issues.Some? then raw.issues.value else [];
    AllClassified(rs);
    LevelSplit(ProcessIssues(rs));
    CategorySplit(ProcessIssues(rs));
  }

  /** The recommendations hold each issue's recommendation, once. */
  lemma AnalysisRecommendations(raw: RawAnalysis)
    ensures var a := Analyze(raw);
            && NoDup(a.recommendations)
            && (forall k :: 0 <= k < |a.issues| ==> a.issues[k].recommendation in a.recommendations)
            && forall r :: r in a.recommendations ==> exists k :: 0 <= k < |a.issues| && a.issues[k].recommendation == r
  {
    var rs := if raw.issues.Some? then raw.issues.value else [];
    RecommendationsCover(ProcessIssues(rs));
  }

  // calculateComplianceAggregatedMetrics

  /** A file's stored analysis as the aggregation reads it; the severity
      summary and categories are objects, any field may be missing. */
  datatype FileReport = FileReport(totalIssues: Option<int>, severitySummary: Option<Counts<string>>,
                                   issueCategories: Option<Counts<string>>, complianceScore: Option<real>)

  /** The analysis `processComplianceAnalysis` produced, as stored. */
  function Stored(a: Analysis): FileReport
  {
    var s := a.severitySummary;
    var c := a.issueCategories;
    FileReport(Some(a.totalIssues),
               Some([Entry("critical", s.critical), Entry("high", s.high), Entry("medium", s.medium), Entry("low", s.low)]),
               Some([Entry("naming", c.naming), Entry("style", c.style), Entry("documentation", c.documentation),
                     Entry("security", c.security), Entry("performance", c.performance), Entry("other", c.other)]),
               Some(a.complianceScore))
  }

  function OrZero(o: Option<int>): int
  {
    if o.Some? then o.value else 0
  }

  function SummaryOf(f: FileReport): Counts<string>
  {
    if f.severitySummary.Some? then f.severitySummary.value else []
  }

  function CategoriesOf(f: FileReport): Counts<string>
  {
    if f.issueCategories.Some? then f.issueCategories.value else []
  }

  function TotalIssues(fs: seq<FileReport>): int
  {
    if fs == [] then 0 else TotalIssues(fs[..|fs| - 1]) + OrZero(fs[|fs| - 1].totalIssues)
  }

  /** `severitySummary?.critical || 0`, summed. */
  function TotalCritical(fs: seq<FileReport>): int
  {
    if fs == [] then 0 else TotalCritical(fs[..|fs| - 1]) + Get(SummaryOf(fs[|fs| - 1]), "critical")
  }

  const InitialSeverities: Counts<string> :=
    [Entry("critical", 0), Entry("high", 0), Entry("medium", 0), Entry("low", 0)]

  /** The severity breakdown: every file's summary merged, starting from
      the four zero entries. */
  function SeverityBreakdown(fs: seq<FileReport>): Counts<string>
  {
    if fs == [] then InitialSeverities else MergeInto(SeverityBreakdown(fs[..|fs| - 1]), SummaryOf(fs[|fs| - 1]))
  }

  /** The issue types: every file's categories merged. */
  function IssueTypes(fs: seq<FileReport>): Counts<string>
  {
    if fs == [] then [] else MergeInto(IssueTypes(fs[..|fs| - 1]), CategoriesOf(fs[|fs| - 1]))
  }

  /** `sort(...)[0]?.[0] || 'None'`. */
  function MostCommon(t: Counts<string>): string
  {
    match FirstMax(t)
    case Some(i) => if t[i].key != "" then t[i].key else "None"
    case None => "None"
  }

  function ScoreOf(f: FileReport): real
  {
    if f.complianceScore.Some? then f.complianceScore.value else 0.0
  }

  function TotalScore(fs: seq<FileReport>): real
  {
    if fs == [] then 0.0 else TotalScore(fs[..|fs| - 1]) + ScoreOf(fs[|fs| - 1])
  }

  datatype Aggregate = Aggregate(totalFiles: nat, totalIssues: int, totalCriticalIssues: int,
                                 avgIssuesPerFile: real, severityBreakdown: Counts<string>,
                                 issueTypes: Counts<string>, mostCommonIssue: string,
                                 avgComplianceScore: real)

  /** `calculateComplianceAggregatedMetrics`, the averages left unformatted. */
  function Aggregated(fs: seq<FileReport>): (r: Aggregate)
    ensures r.totalFiles == |fs|
  {
    var n := |fs|;
    var total := TotalIssues(fs);
    Aggregate(n, total, TotalCritical(fs),
              if n > 0 then total as real / n as real else 0.0,
              SeverityBreakdown(fs), IssueTypes(fs), MostCommon(IssueTypes(fs)),
              if n > 0 then TotalScore(fs) / n as real else 0.0)
  }

  /** A file whose objects have distinct keys, as any parsed object does. */
  predicate WellFormed(f: FileReport)
  {
    Keyed(SummaryOf(f)) && Keyed(CategoriesOf(f))
  }

  /** The breakdown's count of a severity is its initial count plus its
      count in every file; the critical one is the total of critical
      issues. */
  lemma {:induction false} BreakdownSums(fs: seq<FileReport>, sev: string)
    requires forall k :: 0 <= k < |fs| ==> WellFormed(fs[k])
    ensures Get(SeverityBreakdown(fs), sev) == Get(InitialSeverities, sev) + SumOf(fs, sev)
  {
    if fs != [] {
      BreakdownSums(fs[..|fs| - 1], sev);
      MergeIntoGet(SeverityBreakdown(fs[..|fs| - 1]), SummaryOf(fs[|fs| - 1]), sev);
    }
  }

  /** The count of `sev` summed over the files' summaries. */
  function SumOf(fs: seq<FileReport>, sev: string): int
  {
    if fs == [] then 0 else SumOf(fs[..|fs| - 1], sev) + Get(SummaryOf(fs[|fs| - 1]), sev)
  }

  /** The total of critical issues agrees with the breakdown's critical
      count. */
  lemma CriticalAgrees(fs: seq<FileReport>)
    requires forall k :: 0 <= k < |fs| ==> WellFormed(fs[k])
    ensures Aggregated(fs).totalCriticalIssues == Get(Aggregated(fs).severityBreakdown, "critical")
  {
    BreakdownSums(fs, "critical");
    CriticalIsSum(fs);
    GetFirst(InitialSeverities, "critical");
  }

  lemma {:induction false} CriticalIsSum(fs: seq<FileReport>)
    ensures TotalCritical(fs) == SumOf(fs, "critical")
  {
    if fs != [] {
      CriticalIsSum(fs[..|fs| - 1]);
    }
  }

  /** The breakdown always lists the four severities first. */
  lemma {:induction false} BreakdownKeys(fs: seq<FileReport>)
    ensures |SeverityBreakdown(fs)| >= 4
    ensures KeyList(SeverityBreakdown(fs))[..4] == ["critical", "high", "medium", "low"]
  {
    if fs != [] {
      BreakdownKeys(fs[..|fs| - 1]);
      MergeKeepsPrefix(SeverityBreakdown(fs[..|fs| - 1]), SummaryOf(fs[|fs| - 1]));
    } else {
      assert KeyList(InitialSeverities) == ["critical", "high", "medium", "low"];
    }
  }

  lemma {:induction false} MergeKeepsPrefix(acc: Counts<string>, t: Counts<string>)
    ensures |MergeInto(acc, t)| >= |acc|
    ensures KeyList(MergeInto(acc, t))[..|acc|] == KeyList(acc)
  {
    if t != [] {
      MergeKeepsPrefix(acc, t[..|t| - 1]);
      var m := MergeInto(acc, t[..|t| - 1]);
      var e := t[|t| - 1];
      assert KeyList(Add(m, e.key, e.count))[..|m|] == KeyList(m);
    }
  }

  /** A stored analysis counts as many critical issues as its summary. */
  lemma StoredCritical(a: Analysis)
    ensures Get(SummaryOf(Stored(a)), "critical") == a.severitySummary.critical
  {
    GetFirst(SummaryOf(Stored(a)), "critical");
  }

  /** A stored analysis of `processComplianceAnalysis` counts no critical
      issue. */
  lemma StoredNoCritical(raw: RawAnalysis)
    ensures Get(SummaryOf(Stored(Analyze(raw))), "critical") == 0
  {
    AnalysisCounts(raw);
    StoredCritical(Analyze(raw));
  }

  /** Files counting no critical issue add nothing to the critical total, so
      files stored by `processComplianceAnalysis` never do. */
  lemma {:induction false} NoCriticalTotal(fs: seq<FileReport>)
    requires forall k :: 0 <= k < |fs| ==> Get(SummaryOf(fs[k]), "critical") == 0
    ensures TotalCritical(fs) == 0
  {
    if fs != [] {
      NoCriticalTotal(fs[..|fs| - 1]);
    }
  }

  /** The most common issue is the key of the first entry of greatest
      count, "None" when there is no entry or that key is empty. */
  lemma MostCommonIsMax(t: Counts<string>)
    ensures t == [] ==> MostCommon(t) == "None"
    ensures forall i :: IsFirstMax(t, i) ==> MostCommon(t) == (if t[i].key == "" then "None" else t[i].key)
  {
    forall i | IsFirstMax(t, i)
      ensures MostCommon(t) == (if t[i].key == "" then "None" else t[i].key)
    {
      FirstMaxUnique(t, i);
    }
  }

  lemma {:induction false} TotalScoreBounds(fs: seq<FileReport>)
    requires forall k :: 0 <= k < |fs| ==> 0.0 <= ScoreOf(fs[k]) <= 100.0
    ensures 0.0 <= TotalScore(fs) <= 100.0 * |fs| as real
  {
    if fs != [] {
      TotalScoreBounds(fs[..|fs| - 1]);
    }
  }

  /** With every score between 0 and 100, so is the average. */
  lemma AverageScoreBounds(fs: seq<FileReport>)
    requires forall k :: 0 <= k < |fs| ==> 0.0 <= ScoreOf(fs[k]) <= 100.0
    ensures 0.0 <= Aggregated(fs).avgComplianceScore <= 100.0
  {
    if fs != [] {
      TotalScoreBounds(fs);
      var n := |fs| as real;
      var t := TotalScore(fs);
      assert t / n <= 100.0 by {
        assert t <= 100.0 * n;
      }
    }
  }
}
