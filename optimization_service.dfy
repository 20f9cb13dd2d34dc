/** The gateway's optimization service: the optimization agent's findings
    for one file, each annotated with the method it names, its issue type,
    advice and complexity, and summarised for the dashboard. */
module OptimizationService {
  import opened Wrappers
  import opened Text
  import opened Seqs
  import opened Tally
  import OptimizationTypes

  // extractMethodName

  const MethodOpen: string := "Method '"
  const UnknownMethod: string := "Unknown Method"

  /** The length of the run of non-quote characters of `s` from `j`. */
  function QuoteFree(s: string, j: nat): (n: nat)
    requires j <= |s|
    ensures j + n <= |s|
    ensures forall k :: j <= k < j + n ==> s[k] != '\''
    ensures j + n < |s| ==> s[j + n] == '\''
    decreases |s| - j
  {
    if j == |s| || s[j] == '\'' then 0 else 1 + QuoteFree(s, j + 1)
  }

  /** `/Method '([^']+)'/` matches at `i`: the opening, at least one
      non-quote character, then a quote. */
  predicate MethodAt(s: string, i: nat)
  {
    IsAt(s, MethodOpen, i)
    && var j := i + |MethodOpen|;
       0 < QuoteFree(s, j) && j + QuoteFree(s, j) < |s|
  }

  /** The leftmost match at or after `i`. */
  function FirstMethodAt(s: string, i: nat): (r: Option<nat>)
    requires i <= |s|
    ensures r.Some? ==> i <= r.value <= |s| && MethodAt(s, r.value)
                        && forall k :: i <= k < r.value ==> !MethodAt(s, k)
    ensures r.None? ==> forall k :: i <= k <= |s| ==> !MethodAt(s, k)
    decreases |s| - i
  {
    if MethodAt(s, i) then Some(i)
    else if i == |s| then None
    else FirstMethodAt(s, i + 1)
  }

  /** The group captured by the match at `i`. */
  function Captured(s: string, i: nat): (r: string)
    requires MethodAt(s, i)
    ensures r != [] && '\'' !in r
  {
    var j := i + |MethodOpen|;
    var n := QuoteFree(s, j);
    var r := s[j..j + n];
    assert forall k :: 0 <= k < |r| ==> r[k] != '\'';
    r
  }

  /** `extractMethodName`: the name quoted after the first `Method '`
      that has one, else "Unknown Method". */
  function ExtractMethodName(message: string): (r: string)
    ensures FirstMethodAt(message, 0).Some? ==> r == Captured(message, FirstMethodAt(message, 0).value)
    ensures FirstMethodAt(message, 0).None? ==> r == UnknownMethod
  {
    match FirstMethodAt(message, 0)
    case Some(i) => Captured(message, i)
    case None => UnknownMethod
  }

  /** A message opening with `Method '<name>'` gives back `<name>`, for any
      non-empty name without a quote. */
  lemma MethodNameRoundTrip(name: string, rest: string)
    requires name != [] && '\'' !in name
    ensures ExtractMethodName(MethodOpen + name + "'" + rest) == name
  {
    var s := MethodOpen + name + "'" + rest;
    var j := |MethodOpen|;
    assert s[..|MethodOpen|] == MethodOpen;
    assert IsAt(s, MethodOpen, 0);
    assert forall k :: 0 <= k < |name| ==> s[j + k] == name[k];
    assert s[j + |name|] == '\'';
    assert QuoteFree(s, j) == |name|;
    assert MethodAt(s, 0);
    assert s[j..j + |name|] == name;
  }

  /** The optimization rules' messages open with `Method '<class>.<method>'`,
      so the service recovers `<class>.<method>` from them. */
  lemma MethodNameOfRuleMessage(ctx: OptimizationTypes.RuleContext, tail: string)
    requires '\'' !in ctx.className && '\'' !in ctx.methodName
    ensures ExtractMethodName(OptimizationTypes.MethodLabel(ctx) + tail) == ctx.className + "." + ctx.methodName
  {
    var name := ctx.className + "." + ctx.methodName;
    assert OptimizationTypes.MethodLabel(ctx) + tail == MethodOpen + name + "'" + tail;
    MethodNameRoundTrip(name, tail);
  }

  // extractIssueType and generateSuggestion

  const NestedText: string := "Nested loops"
  const LoopText: string := "contains a loop"
  const ScanText: string := "linear scan"

  datatype IssueType = NestedLoops | LoopOptimization | LinearScan | GeneralOptimization

  function IssueName(t: IssueType): string
  {
    match t
    case NestedLoops => "NestedLoops"
    case LoopOptimization => "LoopOptimization"
    case LinearScan => "LinearScan"
    case GeneralOptimization => "GeneralOptimization"
  }

  /** `extractIssueType`: the first of the three phrases the message
      contains decides. */
  function ExtractIssueType(message: string): (t: IssueType)
    ensures t == NestedLoops <==> Contains(message, NestedText)
    ensures t == LoopOptimization <==> !Contains(message, NestedText) && Contains(message, LoopText)
    ensures t == LinearScan <==> !Contains(message, NestedText) && !Contains(message, LoopText)
                                 && Contains(message, ScanText)
  {
    if Contains(message, NestedText) then NestedLoops
    else if Contains(message, LoopText) then LoopOptimization
    else if Contains(message, ScanText) then LinearScan
    else GeneralOptimization
  }

  /** The three pieces of advice `generateSuggestion` can give. */
  datatype Advice = RemoveNesting | HashLookups | ReviewLoop

  function AdviceText(a: Advice): string
  {
    match a
    case RemoveNesting =>
      "Consider using hash maps or sets "
      + "to eliminate nested loops. "
      + "Convert O(n\U{00B2}) to O(n) complexity."
    case HashLookups =>
      "Use hash-based data structures "
      + "(HashSet/HashMap) for O(1) "
      + "lookups instead of linear scans."
    case ReviewLoop =>
      "Review loop body for optimization "
      + "opportunities and consider "
      + "algorithmic improvements."
  }

  /** `generateSuggestion`. */
  function GenerateSuggestion(message: string): Advice
  {
    if Contains(message, NestedText) then RemoveNesting
    else if Contains(message, ScanText) then HashLookups
    else ReviewLoop
  }

  /** The advice agrees with the issue type: nesting advice exactly for
      nested loops, hash lookups for every linear scan, the general review
      for every general issue. A loop message that also mentions a linear
      scan is a loop optimization that gets the hash-lookup advice. */
  lemma AdviceMatchesIssue(message: string)
    ensures GenerateSuggestion(message) == RemoveNesting <==> ExtractIssueType(message) == NestedLoops
    ensures ExtractIssueType(message) == LinearScan ==> GenerateSuggestion(message) == HashLookups
    ensures ExtractIssueType(message) == GeneralOptimization ==> GenerateSuggestion(message) == ReviewLoop
    ensures ExtractIssueType(message) == LoopOptimization
            ==> (GenerateSuggestion(message) == HashLookups <==> Contains(message, ScanText))
  {
  }

  // processOptimizationAnalysis

  /** A raw finding: its message and its severity (`None` when missing). */
  datatype RawResult = RawResult(message: string, severity: Option<string>)

  datatype RawAnalysis = RawAnalysis(fileName: Option<string>, agent: Option<string>,
                                     sourcePath: Option<string>, results: Option<seq<RawResult>>)

  datatype Energy = HighEnergy | ModerateEnergy | LowEnergy

  function EnergyText(e: Energy): string
  {
    match e
    case HighEnergy => "High energy consumption. " + "Significant CPU cycles wasted."
    case ModerateEnergy => "Moderate energy impact. " + "Room for optimization."
    case LowEnergy => "Low impact. Minor " + "optimization opportunity."
  }

  function EnergyImpact(severity: Option<string>): Energy
  {
    if severity == Some("high") then HighEnergy
    else if severity == Some("medium") then ModerateEnergy
    else LowEnergy
  }

  /** A finding as the dashboard receives it: the raw finding plus what the
      service derives from its message; `nested` selects the complexities. */
  datatype Processed = Processed(original: RawResult, methodName: string, issueType: IssueType,
                                 suggestion: Advice, energyImpact: Energy, nested: bool)

  function Complexity(p: Processed): string
  {
    if p.nested then "O(n\U{00B2})" else "O(n)"
  }

  function OptimizedComplexity(p: Processed): string
  {
    if p.nested then "O(n)" else "O(1)"
  }

  /** The callback of `rawAnalysis.results.map`. */
  function ProcessResult(r: RawResult): Processed
  {
    Processed(r, ExtractMethodName(r.message), ExtractIssueType(r.message),
              GenerateSuggestion(r.message), EnergyImpact(r.severity), Contains(r.message, NestedText))
  }

  /** A finding with nested-loop complexity is exactly a nested-loop issue. */
  lemma ComplexityMatchesIssue(r: RawResult)
    ensures ProcessResult(r).nested <==> ProcessResult(r).issueType == NestedLoops
    ensures ProcessResult(r).nested <==> ProcessResult(r).suggestion == RemoveNesting
  {
  }

  function ProcessAll(rs: seq<RawResult>): (ps: seq<Processed>)
    ensures |ps| == |rs|
    ensures forall k :: 0 <= k < |rs| ==> ps[k] == ProcessResult(rs[k])
  {
    if rs == [] then [] else ProcessAll(rs[..|rs| - 1]) + [ProcessResult(rs[|rs| - 1])]
  }

  function MethodNames(rs: seq<RawResult>): (ns: seq<string>)
    ensures |ns| == |rs|
    ensures forall k :: 0 <= k < |rs| ==> ns[k] == ExtractMethodName(rs[k].message)
  {
    if rs == [] then [] else MethodNames(rs[..|rs| - 1]) + [ExtractMethodName(rs[|rs| - 1].message)]
  }

  function IssueTypes(rs: seq<RawResult>): (ts: seq<IssueType>)
    ensures |ts| == |rs|
    ensures forall k :: 0 <= k < |rs| ==> ts[k] == ExtractIssueType(rs[k].message)
  {
    if rs == [] then [] else IssueTypes(rs[..|rs| - 1]) + [ExtractIssueType(rs[|rs| - 1].message)]
  }

  /** A severity that is present and not empty. */
  predicate Truthy(severity: Option<string>)
  {
    severity.Some? && severity.value != ""
  }

  const InitialBreakdown: Counts<string> := [Entry("high", 0), Entry("medium", 0), Entry("low", 0)]

  /** The severity breakdown after the first findings: one more for each
      present severity, on top of the three zero entries. */
  function Breakdown(rs: seq<RawResult>): Counts<string>
  {
    if rs == [] then InitialBreakdown
    else
      var t := Breakdown(rs[..|rs| - 1]);
      var sev := rs[|rs| - 1].severity;
      if Truthy(sev) then Add(t, sev.value, 1) else t
  }

  /** The number of findings of severity `sev`. */
  function SeverityCount(rs: seq<RawResult>, sev: string): (n: nat)
    ensures n <= |rs|
  {
    if rs == [] then 0
    else SeverityCount(rs[..|rs| - 1], sev) + (if rs[|rs| - 1].severity == Some(sev) then 1 else 0)
  }

  /** The number of findings with a severity. */
  function TruthyCount(rs: seq<RawResult>): (n: nat)
    ensures n <= |rs|
  {
    if rs == [] then 0 else TruthyCount(rs[..|rs| - 1]) + (if Truthy(rs[|rs| - 1].severity) then 1 else 0)
  }

  /** The breakdown counts each present severity on top of its initial
      count. */
  lemma {:induction false} BreakdownCounts(rs: seq<RawResult>, sev: string)
    requires sev != ""
    ensures Get(Breakdown(rs), sev) == Get(InitialBreakdown, sev) + SeverityCount(rs, sev)
  {
    if rs != [] {
      var init := rs[..|rs| - 1];
      BreakdownCounts(init, sev);
      var s := rs[|rs| - 1].severity;
      if Truthy(s) {
        AddGet(Breakdown(init), s.value, 1, sev);
      }
    }
  }

  /** The breakdown adds up to the number of findings with a severity. */
  lemma {:induction false} BreakdownTotal(rs: seq<RawResult>)
    ensures Total(Breakdown(rs)) == TruthyCount(rs)
  {
    if rs != [] {
      var init := rs[..|rs| - 1];
      BreakdownTotal(init);
      var s := rs[|rs| - 1].severity;
      if Truthy(s) {
        AddTotal(Breakdown(init), s.value, 1);
      }
    } else {
      var t := InitialBreakdown;
      assert t[..2][..1][..0] == [];
      assert Total(t[..2][..1]) == 0;
      assert Total(t[..2]) == 0;
    }
  }

  /** The breakdown always lists `high`, `medium` and `low` first. */
  lemma {:induction false} BreakdownKeys(rs: seq<RawResult>)
    ensures |Breakdown(rs)| >= 3 && KeyList(Breakdown(rs))[..3] == ["high", "medium", "low"]
  {
    if rs != [] {
      var init := rs[..|rs| - 1];
      BreakdownKeys(init);
      var t := Breakdown(init);
      var s := rs[|rs| - 1].severity;
      if Truthy(s) {
        assert KeyList(Add(t, s.value, 1))[..3] == KeyList(t)[..3];
      }
    } else {
      assert KeyList(InitialBreakdown) == ["high", "medium", "low"];
    }
  }

  /** The number of processed findings of issue type `t`. */
  function OfType(ps: seq<Processed>, t: IssueType): (n: nat)
    ensures n <= |ps|
  {
    if ps == [] then 0 else OfType(ps[..|ps| - 1], t) + (if ps[|ps| - 1].issueType == t then 1 else 0)
  }

  /** The number of processed findings of severity `high`. */
  function HighCount(ps: seq<Processed>): (n: nat)
    ensures n <= |ps|
  {
    if ps == [] then 0
    else HighCount(ps[..|ps| - 1]) + (if ps[|ps| - 1].original.severity == Some("high") then 1 else 0)
  }

  /** `Object.entries(issueTypes).sort(...)[0]`: the name of the first
      issue type of greatest count, or "None". */
  function MostCommonIssue(t: Counts<IssueType>): string
  {
    match FirstMax(t)
    case Some(i) => IssueName(t[i].key)
    case None => "None"
  }

  datatype Impact = LowImpact | MediumImpact | HighImpact

  function PerformanceImpact(total: nat): Impact
  {
    if total > 10 then HighImpact else if total > 5 then MediumImpact else LowImpact
  }

  function ImpactRank(i: Impact): nat
  {
    match i
    case LowImpact => 0
    case MediumImpact => 1
    case HighImpact => 2
  }

  /** More issues never lower the performance impact, and the two
      thresholds are 6 and 11 issues. */
  lemma ImpactMonotone(a: nat, b: nat)
    requires a <= b
    ensures ImpactRank(PerformanceImpact(a)) <= ImpactRank(PerformanceImpact(b))
    ensures PerformanceImpact(5) == LowImpact && PerformanceImpact(6) == MediumImpact
    ensures PerformanceImpact(10) == MediumImpact && PerformanceImpact(11) == HighImpact
  {
  }

  /** `Math.min(95, nested * 70 + linear * 40)`. */
  function EnergySavings(nested: nat, linear: nat): (r: nat)
    ensures r <= 95
    ensures r == 0 <==> nested == 0 && linear == 0
    ensures nested > 0 && linear > 0 ==> r == 95
  {
    if nested * 70 + linear * 40 < 95 then nested * 70 + linear * 40 else 95
  }

  datatype Summary = Summary(totalIssues: nat, criticalIssues: nat, severityBreakdown: Counts<string>,
                             methodsAffected: nat, mostCommonIssue: string,
                             performanceImpact: Impact, energySavings: nat)

  datatype Analysis = Analysis(fileName: string, agent: string, sourcePath: string,
                               results: seq<Processed>, summary: Summary)

  /** `rawAnalysis.x || fallback`. */
  function OrElse(o: Option<string>, fallback: string): string
  {
    if o.Some? && o.value != "" then o.value else fallback
  }

  const EmptySummary: Summary := Summary(0, 0, InitialBreakdown, 0, "None", LowImpact, 0)

  /** What `processOptimizationAnalysis` returns, stated on whole sequences:
      the method set is the distinct names, the issue counter the tally of
      the issue types. */
  function Analyze(raw: RawAnalysis): Analysis
  {
    var head := Analysis(OrElse(raw.fileName, "unknown.java"), OrElse(raw.agent, "optimization"),
                         OrElse(raw.sourcePath, ""), [], EmptySummary);
    match raw.results
    case None => head
    case Some(rs) =>
      var ps := ProcessAll(rs);
      head.(results := ps,
            summary := Summary(|ps|, HighCount(ps), Breakdown(rs), |Distinct(MethodNames(rs))|,
                               MostCommonIssue(TallyOf(IssueTypes(rs))), PerformanceImpact(|ps|),
                               EnergySavings(OfType(ps, NestedLoops), OfType(ps, LinearScan))))
  }

  /** Each sequence the loop of `processOptimizationAnalysis` keeps grows
      by the contribution of the next finding. */
  lemma ScanStep(rs: seq<RawResult>, i: nat)
    requires i < |rs|
    ensures var r, prefix := rs[i], rs[..i];
            && ProcessAll(rs[..i + 1]) == ProcessAll(prefix) + [ProcessResult(r)]
            && Distinct(MethodNames(rs[..i + 1]))
               == (var d := Distinct(MethodNames(prefix));
                   if ExtractMethodName(r.message) in d then d else d + [ExtractMethodName(r.message)])
            && TallyOf(IssueTypes(rs[..i + 1])) == Add(TallyOf(IssueTypes(prefix)), ExtractIssueType(r.message), 1)
            && Breakdown(rs[..i + 1])
               == (if Truthy(r.severity) then Add(Breakdown(prefix), r.severity.value, 1) else Breakdown(prefix))
  {
    assert rs[..i + 1][..i] == rs[..i];
    var ns := MethodNames(rs[..i + 1]);
    assert ns[..|ns| - 1] == MethodNames(rs[..i]);
    var ts := IssueTypes(rs[..i + 1]);
    assert ts[..|ts| - 1] == IssueTypes(rs[..i]);
  }

  /** The loop of `processOptimizationAnalysis`: each finding's name added
      to the method set, its issue type and severity counted, and the
      finding annotated. */
  method ScanResults(rs: seq<RawResult>)
    returns (ps: seq<Processed>, methodNames: seq<string>, issueTypes: Counts<IssueType>, breakdown: Counts<string>)
    ensures ps == ProcessAll(rs)
    ensures methodNames == Distinct(MethodNames(rs))
    ensures issueTypes == TallyOf(IssueTypes(rs))
    ensures breakdown == Breakdown(rs)
  {
    methodNames, issueTypes, breakdown, ps := [], [], InitialBreakdown, [];
    for i := 0 to |rs|
      invariant ps == ProcessAll(rs[..i])
      invariant methodNames == Distinct(MethodNames(rs[..i]))
      invariant issueTypes == TallyOf(IssueTypes(rs[..i]))
      invariant breakdown == Breakdown(rs[..i])
    {
      var r := rs[i];
      var methodName := ExtractMethodName(r.message);
      var issueType := ExtractIssueType(r.message);
      if methodName !in methodNames {
        methodNames := methodNames + [methodName];
      }
      issueTypes := Add(issueTypes, issueType, 1);
      if r.severity.Some? && r.severity.value != "" {
        breakdown := Add(breakdown, r.severity.value, 1);
      }
      ps := ps + [Processed(r, methodName, issueType, GenerateSuggestion(r.message),
                            EnergyImpact(r.severity), Contains(r.message, NestedText))];
      ScanStep(rs, i);
    }
    assert rs[..|rs|] == rs;
  }

  /** `processOptimizationAnalysis`. */
  method ProcessOptimizationAnalysis(raw: RawAnalysis) returns (a: Analysis)
    ensures a == Analyze(raw)
  {
    a := Analysis(OrElse(raw.fileName, "unknown.java"), OrElse(raw.agent, "optimization"),
                  OrElse(raw.sourcePath, ""), [], EmptySummary);
    if raw.results.Some? {
      var ps, methodNames, issueTypes, breakdown := ScanResults(raw.results.value);
      var total := |ps|;
      a := a.(results := ps,
               summary := Summary(total, HighCount(ps), breakdown, |methodNames|,
                                  MostCommonIssue(issueTypes), PerformanceImpact(total),
                                  EnergySavings(OfType(ps, NestedLoops), OfType(ps, LinearScan))));
    }
  }

  /** One issue per finding, and the critical ones are the high ones. */
  lemma SummaryCounts(raw: RawAnalysis)
    requires raw.results.Some?
    ensures Analyze(raw).summary.totalIssues == |raw.results.value|
    ensures Analyze(raw).summary.criticalIssues == SeverityCount(raw.results.value, "high")
  {
    HighIsSeverity(raw.results.value);
  }

  /** Every distinct method name is counted once: there are no more methods
      than findings, at least one when there is a finding, and the set holds
      exactly the names the findings give. */
  lemma MethodsAffected(raw: RawAnalysis)
    requires raw.results.Some?
    ensures var rs := raw.results.value;
            var s := Analyze(raw).summary;
            && s.methodsAffected <= s.totalIssues
            && (s.totalIssues > 0 ==> s.methodsAffected > 0)
            && (forall n :: n in Distinct(MethodNames(rs)) <==> exists k :: 0 <= k < |rs| && ExtractMethodName(rs[k].message) == n)
  {
    var rs := raw.results.value;
    var ns := MethodNames(rs);
    if |rs| > 0 {
      assert ns[0] in Distinct(ns);
    }
    forall n
      ensures n in Distinct(ns) <==> exists k :: 0 <= k < |rs| && ExtractMethodName(rs[k].message) == n
    {
      if n in ns {
        var k :| 0 <= k < |ns| && ns[k] == n;
        assert ExtractMethodName(rs[k].message) == n;
      }
    }
  }

  lemma {:induction false} HighIsSeverity(rs: seq<RawResult>)
    ensures HighCount(ProcessAll(rs)) == SeverityCount(rs, "high")
  {
    if rs != [] {
      HighIsSeverity(rs[..|rs| - 1]);
      assert ProcessAll(rs)[..|rs| - 1] == ProcessAll(rs[..|rs| - 1]);
    }
  }

  /** The most common issue is the name of an issue type that occurs most
      often, the first to occur among those; "None" without findings. */
  lemma MostCommonIsMax(rs: seq<RawResult>)
    ensures rs == [] ==> MostCommonIssue(TallyOf(IssueTypes(rs))) == "None"
    ensures rs != [] ==> exists t :: MostCommonIssue(TallyOf(IssueTypes(rs))) == IssueName(t)
                                     && t in IssueTypes(rs)
                                     && forall u :: Occurrences(IssueTypes(rs), u) <= Occurrences(IssueTypes(rs), t)
    ensures forall i :: IsFirstMax(TallyOf(IssueTypes(rs)), i) ==>
              MostCommonIssue(TallyOf(IssueTypes(rs))) == IssueName(TallyOf(IssueTypes(rs))[i].key)
  {
    forall i | IsFirstMax(TallyOf(IssueTypes(rs)), i)
      ensures MostCommonIssue(TallyOf(IssueTypes(rs))) == IssueName(TallyOf(IssueTypes(rs))[i].key)
    {
      FirstMaxUnique(TallyOf(IssueTypes(rs)), i);
    }
    if rs != [] {
      var ts := IssueTypes(rs);
      var i := FirstMaxOccurs(ts);
      var top := TallyOf(ts)[i].key;
      assert MostCommonIssue(TallyOf(ts)) == IssueName(top);
    }
  }
}
