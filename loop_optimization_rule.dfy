/** The loop-optimization rule: methods with loops are potential hot
    spots, the more loops the more severe. */
module LoopOptimizationRule {
  import opened Wrappers
  import opened Text
  import opened OptimizationTypes

  const Name: string := "Loop Optimization"

  /** `applies`: the method has a non-empty loop array. */
  predicate Applies(node: MethodAst, ctx: RuleContext)
  {
    node.loops.Some? && |node.loops.value| > 0
  }

  /** The message text after the method label, for `n` loops. */
  function Tail(n: nat): string
  {
    if n >= 3 then
      " contains " + NatToString(n)
      + " loop constructs, which "
      + "suggests deeply nested or "
      + "repeated iterations. This can "
      + "easily lead to O(n^k) behavior. "
      + "Consider reducing loop depth, "
      + "breaking the work into smaller "
      + "passes, or using indexing/maps "
      + "to avoid inner scans."
    else if n == 2 then
      " contains 2 loop constructs. "
      + "Nested loops can be costly; "
      + "consider whether a different "
      + "algorithm or precomputed data "
      + "structure (for example, a "
      + "Map/Set) could avoid one of the "
      + "loops."
    else
      " contains a loop. If the "
      + "collection is large or this "
      + "method is called frequently, "
      + "ensure the loop body does not "
      + "contain unnecessary heavy work."
  }

  /** `analyze`: nothing without loops; otherwise a finding at the file,
      high from three loops on, medium for two, low for one. */
  function Analyze(node: MethodAst, ctx: RuleContext): (r: Option<AgentResult>)
    ensures r.None? <==> LoopCount(node) == 0
    ensures r.Some? ==> r.value.message == LoopMessage(ctx, LoopCount(node)) && r.value.location == ctx.filePath
    ensures r.Some? ==> (r.value.severity == High <==> LoopCount(node) >= 3)
    ensures r.Some? ==> (r.value.severity == Medium <==> LoopCount(node) == 2)
    ensures r.Some? ==> (r.value.severity == Low <==> LoopCount(node) == 1)
  {
    var loopCount := LoopCount(node);
    if loopCount == 0 then None
    else
      var severity := if loopCount >= 3 then High else if loopCount == 2 then Medium else Low;
      Some(AgentResult(LoopMessage(ctx, loopCount), severity, ctx.filePath))
  }

  /** Whenever the rule applies it reports, so its null result never
      reaches the agent. */
  lemma AppliesReports(node: MethodAst, ctx: RuleContext)
    requires Applies(node, ctx)
    ensures Analyze(node, ctx).Some?
  {
  }

  /** Another loop never lowers the severity. */
  lemma MoreLoopsNoLower(node: MethodAst, more: MethodAst, ctx: RuleContext)
    requires 0 < LoopCount(node) <= LoopCount(more)
    ensures Rank(Analyze(node, ctx).value.severity) <= Rank(Analyze(more, ctx).value.severity)
  {
  }
}
