/** The static analyzer's report: the rule violations grouped by severity,
    a summary of counts, and the violations themselves as details. */
module ReportGenerator {
  import opened RuleEngine

  /** The violations of severity `sev`, in input order. */
  function OfSeverity(vs: seq<Violation>, sev: string): (r: seq<Violation>)
    ensures |r| <= |vs|
    ensures forall v :: v in r <==> v in vs && v.severity == sev
  {
    if vs == [] then []
    else OfSeverity(vs[..|vs| - 1], sev) + (if vs[|vs| - 1].severity == sev then [vs[|vs| - 1]] else [])
  }

  /** `violations.reduce(...)`: a bucket per severity met, each holding its
      violations in the order they were pushed. */
  function Group(vs: seq<Violation>): (g: map<string, seq<Violation>>)
  {
    if vs == [] then map[]
    else
      var g := Group(vs[..|vs| - 1]);
      var v := vs[|vs| - 1];
      g[v.severity := (if v.severity in g then g[v.severity] else []) + [v]]
  }

  /** A bucket exists exactly for the severities that occur, and holds the
      violations of that severity in input order. */
  lemma {:induction false} GroupBuckets(vs: seq<Violation>, sev: string)
    ensures sev in Group(vs) <==> OfSeverity(vs, sev) != []
    ensures sev in Group(vs) ==> Group(vs)[sev] == OfSeverity(vs, sev)
  {
    if vs != [] {
      GroupBuckets(vs[..|vs| - 1], sev);
    }
  }

  /** `grouped[sev]?.length || 0`. */
  function BucketSize(g: map<string, seq<Violation>>, sev: string): nat
  {
    if sev in g then |g[sev]| else 0
  }

  datatype Summary = Summary(total: nat, critical: nat, high: nat, medium: nat, low: nat)
  datatype Report = Report(summary: Summary, details: seq<Violation>)

  /** `ReportGenerator.generate`. */
  function Generate(vs: seq<Violation>): (r: Report)
    ensures r.details == vs
    ensures r.summary.total == |vs|
  {
    var g := Group(vs);
    Report(Summary(|vs|, BucketSize(g, "critical"), BucketSize(g, "high"),
                   BucketSize(g, "medium"), BucketSize(g, "low")),
           vs)
  }

  /** Each bucket size is the number of violations of that severity. */
  lemma BucketSizeCounts(vs: seq<Violation>, sev: string)
    ensures BucketSize(Group(vs), sev) == |OfSeverity(vs, sev)|
  {
    GroupBuckets(vs, sev);
  }

  /** The violations of four distinct severities number at most all the
      violations. */
  lemma {:induction false} FourSeverities(vs: seq<Violation>, a: string, b: string, c: string, d: string)
    requires a != b && a != c && a != d && b != c && b != d && c != d
    ensures |OfSeverity(vs, a)| + |OfSeverity(vs, b)| + |OfSeverity(vs, c)| + |OfSeverity(vs, d)| <= |vs|
  {
    if vs != [] {
      FourSeverities(vs[..|vs| - 1], a, b, c, d);
    }
  }

  /** They number exactly all the violations when no other severity occurs. */
  lemma {:induction false} FourSeveritiesCover(vs: seq<Violation>, a: string, b: string, c: string, d: string)
    requires a != b && a != c && a != d && b != c && b != d && c != d
    requires forall k :: 0 <= k < |vs| ==> vs[k].severity in {a, b, c, d}
    ensures |OfSeverity(vs, a)| + |OfSeverity(vs, b)| + |OfSeverity(vs, c)| + |OfSeverity(vs, d)| == |vs|
  {
    if vs != [] {
      var init := vs[..|vs| - 1];
      FourSeveritiesCover(init, a, b, c, d);
      var sev := vs[|vs| - 1].severity;
      assert sev == a || sev == b || sev == c || sev == d;
    }
  }

  /** The four counts of a list grow by one with a last violation of one
      of the four severities, and stay put with any other. */
  lemma FourSeveritiesSnoc(vs: seq<Violation>, a: string, b: string, c: string, d: string)
    requires a != b && a != c && a != d && b != c && b != d && c != d
    requires vs != []
    ensures var init, last := vs[..|vs| - 1], vs[|vs| - 1];
            |OfSeverity(vs, a)| + |OfSeverity(vs, b)| + |OfSeverity(vs, c)| + |OfSeverity(vs, d)|
            == |OfSeverity(init, a)| + |OfSeverity(init, b)| + |OfSeverity(init, c)| + |OfSeverity(init, d)|
               + (if last.severity in {a, b, c, d} then 1 else 0)
  {
  }

  /** A violation of another severity keeps the four counts below the
      total. */
  lemma {:induction false} FourSeveritiesMiss(vs: seq<Violation>, a: string, b: string, c: string, d: string, k: nat)
    requires a != b && a != c && a != d && b != c && b != d && c != d
    requires k < |vs| && vs[k].severity !in {a, b, c, d}
    ensures |OfSeverity(vs, a)| + |OfSeverity(vs, b)| + |OfSeverity(vs, c)| + |OfSeverity(vs, d)| < |vs|
  {
    var init := vs[..|vs| - 1];
    FourSeveritiesSnoc(vs, a, b, c, d);
    if k == |vs| - 1 {
      FourSeverities(init, a, b, c, d);
    } else {
      assert init[k] == vs[k];
      FourSeveritiesMiss(init, a, b, c, d, k);
    }
  }

  /** The four counts reach the total only when every violation has one of
      the four severities. */
  lemma FourSeveritiesOnly(vs: seq<Violation>, a: string, b: string, c: string, d: string)
    requires a != b && a != c && a != d && b != c && b != d && c != d
    requires |OfSeverity(vs, a)| + |OfSeverity(vs, b)| + |OfSeverity(vs, c)| + |OfSeverity(vs, d)| == |vs|
    ensures forall k :: 0 <= k < |vs| ==> vs[k].severity in {a, b, c, d}
  {
    forall k | 0 <= k < |vs|
      ensures vs[k].severity in {a, b, c, d}
    {
      if vs[k].severity !in {a, b, c, d} {
        FourSeveritiesMiss(vs, a, b, c, d, k);
      }
    }
  }

  /** The summary counts each of the four severities, and they add up to the
      total exactly when every violation has one of them. */
  lemma SummaryCounts(vs: seq<Violation>)
    ensures var s := Generate(vs).summary;
            && s.critical == |OfSeverity(vs, "critical")|
            && s.high == |OfSeverity(vs, "high")|
            && s.medium == |OfSeverity(vs, "medium")|
            && s.low == |OfSeverity(vs, "low")|
            && s.critical + s.high + s.medium + s.low <= s.total
            && ((forall k :: 0 <= k < |vs| ==> vs[k].severity in {"critical", "high", "medium", "low"})
                <==> s.critical + s.high + s.medium + s.low == s.total)
  {
    BucketSizeCounts(vs, "critical");
    BucketSizeCounts(vs, "high");
    BucketSizeCounts(vs, "medium");
    BucketSizeCounts(vs, "low");
    FourSeverities(vs, "critical", "high", "medium", "low");
    if forall k :: 0 <= k < |vs| ==> vs[k].severity in {"critical", "high", "medium", "low"} {
      FourSeveritiesCover(vs, "critical", "high", "medium", "low");
    }
    if |OfSeverity(vs, "critical")| + |OfSeverity(vs, "high")| + |OfSeverity(vs, "medium")| + |OfSeverity(vs, "low")| == |vs| {
      FourSeveritiesOnly(vs, "critical", "high", "medium", "low");
    }
  }
}
