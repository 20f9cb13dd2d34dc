/** The algorithm-choice rule: loops hint at linear searches or manual
    de-duplication that a set or map would avoid. */
module AlgorithmChoiceRule {
  import opened Wrappers
  import opened Text
  import opened OptimizationTypes

  const Name: string := "Algorithm Choice"

  /** `applies`: the method has a non-empty loop array. */
  predicate Applies(node: MethodAst, ctx: RuleContext)
  {
    node.loops.Some? && |node.loops.value| > 0
  }

  /** The message text after the method label, for `n` loops. */
  function Tail(n: nat): string
  {
    if n >= 3 then
      " contains " + NatToString(n)
      + " loop constructs. This often "
      + "indicates nested iterations "
      + "used for linear search or "
      + "manual deduplication. Consider "
      + "replacing inner loops with "
      + "HashSet/Map lookups or using "
      + "better algorithms (for example, "
      + "binary search on sorted data)."
    else if n == 2 then
      " contains 2 loop constructs. "
      + "Nested loops are commonly used "
      + "for searching or checking "
      + "duplicates; if the collections "
      + "are large, consider using "
      + "Sets/Maps or precomputed "
      + "indexes instead of scanning in "
      + "the inner loop."
    else
      " contains a loop that likely "
      + "performs a linear scan. If this "
      + "runs over large collections or "
      + "is called frequently, think "
      + "about using more efficient data "
      + "structures (for example, "
      + "HashSet/Map) or algorithms."
  }

  /** `analyze`: nothing without loops; otherwise a finding at the file,
      high from three loops on, medium for two, low for one. */
  function Analyze(node: MethodAst, ctx: RuleContext): (r: Option<AgentResult>)
    ensures r.None? <==> LoopCount(node) == 0
    ensures r.Some? ==> r.value.message == AlgorithmMessage(ctx, LoopCount(node)) && r.value.location == ctx.filePath
    ensures r.Some? ==> (r.value.severity == High <==> LoopCount(node) >= 3)
    ensures r.Some? ==> (r.value.severity == Medium <==> LoopCount(node) == 2)
    ensures r.Some? ==> (r.value.severity == Low <==> LoopCount(node) == 1)
  {
    var loopCount := LoopCount(node);
    if loopCount == 0 then None
    else
      var severity := if loopCount >= 3 then High else if loopCount == 2 then Medium else Low;
      Some(AgentResult(AlgorithmMessage(ctx, loopCount), severity, ctx.filePath))
  }

  /** Whenever the rule applies it reports. */
  lemma AppliesReports(node: MethodAst, ctx: RuleContext)
    requires Applies(node, ctx)
    ensures Analyze(node, ctx).Some?
  {
  }
}
