/** The gateway's data-structure service: the data-structure agent's
    suggestions for one file, enriched with counts, and the metrics
    aggregated over several files. */
module DataStructureService {
  import opened Wrappers
  import opened Seqs
  import opened Tally

  /** A suggestion as the data-structure agent writes it; every field may
      be missing. */
  datatype Suggestion = Suggestion(issueType: Option<string>, severity: Option<string>,
                                   recommendedDataStructure: Option<string>)

  /** `s.issueType === 'NestedLoops' || ... || s.severity === 'critical'`. */
  predicate IsCritical(s: Suggestion)
  {
    s.issueType == Some("NestedLoops") || s.issueType == Some("ManualArraySearch")
    || s.severity == Some("high") || s.severity == Some("critical")
  }

  /** `calculateCriticalIssues`: the number of critical suggestions. */
  function CalculateCriticalIssues(ss: seq<Suggestion>): (n: nat)
    ensures n <= |ss|
  {
    if ss == [] then 0
    else CalculateCriticalIssues(ss[..|ss| - 1]) + (if IsCritical(ss[|ss| - 1]) then 1 else 0)
  }

  /** There are no critical issues exactly when no suggestion is critical,
      and as many as suggestions exactly when every one is. */
  lemma {:induction false} CriticalIssuesIff(ss: seq<Suggestion>)
    ensures CalculateCriticalIssues(ss) == 0 <==> forall k :: 0 <= k < |ss| ==> !IsCritical(ss[k])
    ensures CalculateCriticalIssues(ss) == |ss| <==> forall k :: 0 <= k < |ss| ==> IsCritical(ss[k])
  {
    if ss != [] {
      var init := ss[..|ss| - 1];
      CriticalIssuesIff(init);
      assert forall k :: 0 <= k < |init| ==> init[k] == ss[k];
    }
  }

  /** The truthy `recommendedDataStructure` values, in order. */
  function RecommendedStructures(ss: seq<Suggestion>): (r: seq<string>)
    ensures forall x :: x in r <==> x != "" && exists k :: 0 <= k < |ss| && ss[k].recommendedDataStructure == Some(x)
  {
    if ss == [] then []
    else
      var init := ss[..|ss| - 1];
      var rest := RecommendedStructures(init);
      assert forall k :: 0 <= k < |init| ==> init[k] == ss[k];
      var d := ss[|ss| - 1].recommendedDataStructure;
      if d.Some? && d.value != "" then rest + [d.value] else rest
  }

  /** `extractRecommendations`: the loop adding each truthy recommended
      structure to a set. */
  method ExtractRecommendations(ss: seq<Suggestion>) returns (recs: seq<string>)
    ensures recs == Distinct(RecommendedStructures(ss))
  {
    recs := [];
    for i := 0 to |ss|
      invariant recs == Distinct(RecommendedStructures(ss[..i]))
    {
      assert ss[..i + 1][..i] == ss[..i];
      var d := ss[i].recommendedDataStructure;
      if d.Some? && d.value != "" && d.value !in recs {
        recs := recs + [d.value];
      }
    }
    assert ss[..|ss|] == ss;
  }

  /** The key `acc[suggestion.issueType]` uses: a missing type is the key
      "undefined". */
  function IssueKey(s: Suggestion): string
  {
    if s.issueType.Some? then s.issueType.value else "undefined"
  }

  function IssueKeys(ss: seq<Suggestion>): (r: seq<string>)
    ensures |r| == |ss|
    ensures forall k :: 0 <= k < |ss| ==> r[k] == IssueKey(ss[k])
  {
    seq(|ss|, k requires 0 <= k < |ss| => IssueKey(ss[k]))
  }

  /** `groupByIssueType`. */
  function GroupByIssueType(ss: seq<Suggestion>): Counts<string>
  {
    TallyOf(IssueKeys(ss))
  }

  /** Each issue type is counted once per suggestion of that type, the types
      appear in order of first occurrence, and the counts add up to the
      number of suggestions. */
  lemma GroupCounts(ss: seq<Suggestion>)
    ensures Keyed(GroupByIssueType(ss))
    ensures KeyList(GroupByIssueType(ss)) == Distinct(IssueKeys(ss))
    ensures Total(GroupByIssueType(ss)) == |ss|
    ensures forall k :: Get(GroupByIssueType(ss), k) == Occurrences(IssueKeys(ss), k)
  {
    TallyCounts(IssueKeys(ss));
  }

  /** A file's analysis as the service enriches it and the aggregation
      reads it; the stored fields may be missing. */
  datatype FileAnalysis = FileAnalysis(folder: string, suggestions: Option<seq<Suggestion>>,
                                       totalIssues: Option<int>, criticalIssues: Option<int>,
                                       issueTypes: Option<Counts<string>>, recommendations: seq<string>)

  function SuggestionsOf(f: FileAnalysis): seq<Suggestion>
  {
    if f.suggestions.Some? then f.suggestions.value else []
  }

  /** The enrichment `getAnalysis` and `getFileAnalysis` apply to a parsed
      report. */
  function Enrich(folder: string, suggestions: Option<seq<Suggestion>>): (f: FileAnalysis)
    ensures f.folder == folder && f.suggestions == suggestions
  {
    var ss := if suggestions.Some? then suggestions.value else [];
    FileAnalysis(folder, suggestions, Some(|ss|), Some(CalculateCriticalIssues(ss)),
                 Some(GroupByIssueType(ss)), Distinct(RecommendedStructures(ss)))
  }

  function OrZero(o: Option<int>): int
  {
    if o.Some? then o.value else 0
  }

  function TypesOf(f: FileAnalysis): Counts<string>
  {
    if f.issueTypes.Some? then f.issueTypes.value else []
  }

  function TotalIssues(fs: seq<FileAnalysis>): int
  {
    if fs == [] then 0 else TotalIssues(fs[..|fs| - 1]) + OrZero(fs[|fs| - 1].totalIssues)
  }

  function CriticalIssues(fs: seq<FileAnalysis>): int
  {
    if fs == [] then 0 else CriticalIssues(fs[..|fs| - 1]) + OrZero(fs[|fs| - 1].criticalIssues)
  }

  /** Every file's issue types merged into one object. */
  function IssueTypes(fs: seq<FileAnalysis>): Counts<string>
  {
    if fs == [] then [] else MergeInto(IssueTypes(fs[..|fs| - 1]), TypesOf(fs[|fs| - 1]))
  }

  /** `suggestion.recommendedDataStructure || suggestion.issueType`, when
      truthy. */
  function RecommendationKey(s: Suggestion): Option<string>
  {
    if s.recommendedDataStructure.Some? && s.recommendedDataStructure.value != "" then s.recommendedDataStructure
    else if s.issueType.Some? && s.issueType.value != "" then s.issueType
    else None
  }

  function RecommendationKeys(ss: seq<Suggestion>): seq<string>
  {
    if ss == [] then []
    else
      var rest := RecommendationKeys(ss[..|ss| - 1]);
      match RecommendationKey(ss[|ss| - 1])
      case Some(key) => rest + [key]
      case None => rest
  }

  /** The keys counted over all files, in the order they are counted. */
  function AllRecommendationKeys(fs: seq<FileAnalysis>): seq<string>
  {
    if fs == [] then [] else AllRecommendationKeys(fs[..|fs| - 1]) + RecommendationKeys(SuggestionsOf(fs[|fs| - 1]))
  }

  /** `Math.round(totalIssues * 8.5)`. */
  function PotentialSavings(total: int): (r: int)
    ensures 17 * total - 1 < 2 * r <= 17 * total + 1
  {
    (17 * total + 1) / 2
  }

  datatype Reduction = High | Medium

  datatype EnergyImpact = EnergyImpact(potentialSavings: int, highImpactIssues: int,
                                       estimatedReduction: Reduction, totalFilesAnalyzed: nat)

  datatype Aggregate = Aggregate(totalIssues: int, criticalIssues: int, avgIssuesPerFile: real,
                                 issueTypes: Counts<string>, totalFiles: nat, mostCommonIssue: string,
                                 mostCommonRecommendations: Counts<string>, energyImpact: EnergyImpact,
                                 folders: seq<string>)

  const NoIssues := "No issues"

  function Folders(fs: seq<FileAnalysis>): (r: seq<string>)
    ensures |r| == |fs|
    ensures forall k :: 0 <= k < |fs| ==> r[k] == fs[k].folder
  {
    seq(|fs|, k requires 0 <= k < |fs| => fs[k].folder)
  }

  /** `calculateAggregatedMetrics`, the average left unformatted. */
  function Aggregated(fs: seq<FileAnalysis>): (r: Aggregate)
    ensures r.totalFiles == |fs| && r.energyImpact.totalFilesAnalyzed == |fs|
    ensures r.energyImpact.highImpactIssues == r.criticalIssues
    ensures r.energyImpact.estimatedReduction == High <==> r.criticalIssues > 0
    ensures |r.mostCommonRecommendations| <= 5
    ensures forall x :: x in r.folders <==> exists k :: 0 <= k < |fs| && fs[k].folder == x
    ensures NoDup(r.folders)
  {
    var n := |fs|;
    var total := TotalIssues(fs);
    var critical := CriticalIssues(fs);
    var types := IssueTypes(fs);
    Aggregate(total, critical, if n > 0 then total as real / n as real else 0.0, types, n,
              ReduceMax(types, |types|, NoIssues),
              Top(TallyOf(AllRecommendationKeys(fs)), 5),
              EnergyImpact(PotentialSavings(total), critical, if critical > 0 then High else Medium, n),
              Distinct(Folders(fs)))
  }

  /** A file whose stored issue types are an object (distinct keys) adding
      up to its total, with no more critical issues than issues. */
  predicate Consistent(f: FileAnalysis)
  {
    && Keyed(TypesOf(f))
    && Total(TypesOf(f)) == OrZero(f.totalIssues)
    && 0 <= OrZero(f.criticalIssues) <= OrZero(f.totalIssues)
  }

  /** Enriched files are consistent, and their issue types count their
      suggestions. */
  lemma EnrichConsistent(folder: string, suggestions: Option<seq<Suggestion>>)
    ensures Consistent(Enrich(folder, suggestions))
    ensures forall k :: Get(TypesOf(Enrich(folder, suggestions)), k)
                        == Occurrences(IssueKeys(SuggestionsOf(Enrich(folder, suggestions))), k)
  {
    GroupCounts(if suggestions.Some? then suggestions.value else []);
  }

  /** Over consistent files, the merged issue types add up to the total
      number of issues, and critical issues never outnumber them. */
  lemma {:induction false} TypesAddUp(fs: seq<FileAnalysis>)
    requires forall k :: 0 <= k < |fs| ==> Consistent(fs[k])
    ensures Keyed(IssueTypes(fs))
    ensures Total(IssueTypes(fs)) == TotalIssues(fs)
    ensures 0 <= CriticalIssues(fs) <= TotalIssues(fs)
  {
    if fs != [] {
      TypesAddUp(fs[..|fs| - 1]);
      MergeIntoTotal(IssueTypes(fs[..|fs| - 1]), TypesOf(fs[|fs| - 1]));
      MergeIntoKeyed(IssueTypes(fs[..|fs| - 1]), TypesOf(fs[|fs| - 1]));
    }
  }

  /** The merged count of an issue type is its count summed over the files. */
  lemma {:induction false} IssueTypeSums(fs: seq<FileAnalysis>, key: string)
    requires forall k :: 0 <= k < |fs| ==> Keyed(TypesOf(fs[k]))
    ensures Get(IssueTypes(fs), key) == TypeSum(fs, key)
  {
    if fs != [] {
      IssueTypeSums(fs[..|fs| - 1], key);
      MergeIntoGet(IssueTypes(fs[..|fs| - 1]), TypesOf(fs[|fs| - 1]), key);
    }
  }

  /** The count of `key` summed over the files' issue types. */
  function TypeSum(fs: seq<FileAnalysis>, key: string): int
  {
    if fs == [] then 0 else TypeSum(fs[..|fs| - 1], key) + Get(TypesOf(fs[|fs| - 1]), key)
  }

  /** Each recommendation is counted once per suggestion it keys, the
      counts add up to the number of keyed suggestions, and the five kept
      are the greatest counts in descending order. */
  lemma RecommendationCounts(fs: seq<FileAnalysis>)
    ensures var t := TallyOf(AllRecommendationKeys(fs));
            && (forall k :: Get(t, k) == Occurrences(AllRecommendationKeys(fs), k))
            && Total(t) == |AllRecommendationKeys(fs)|
            && SortedDesc(Aggregated(fs).mostCommonRecommendations)
            && multiset(Aggregated(fs).mostCommonRecommendations) <= multiset(t)
            && (Aggregated(fs).mostCommonRecommendations != [] ==>
                 forall e :: e in SortDesc(t)[|Aggregated(fs).mostCommonRecommendations|..] ==>
                   e.count <= Aggregated(fs).mostCommonRecommendations[|Aggregated(fs).mostCommonRecommendations| - 1].count)
  {
    var t := TallyOf(AllRecommendationKeys(fs));
    TallyCounts(AllRecommendationKeys(fs));
    TopEntries(t, 5);
  }

  /** Over consistent files, the most common issue is "No issues" when no
      type was counted, and otherwise the last type of greatest count. */
  lemma MostCommonIssueIsLastMax(fs: seq<FileAnalysis>)
    requires forall k :: 0 <= k < |fs| ==> Consistent(fs[k])
    ensures var t := IssueTypes(fs);
            && (t == [] ==> Aggregated(fs).mostCommonIssue == NoIssues)
            && (t != [] ==> exists i :: 0 <= i < |t| && Aggregated(fs).mostCommonIssue == t[i].key && LastMaxAt(t, |t|, i))
  {
    TypesAddUp(fs);
    ReduceMaxLast(IssueTypes(fs), NoIssues);
  }
}
