/** The memoization rule: a method whose name suggests a deterministic
    computation and which loops is a candidate for caching its results. */
module MemoizationRule {
  import opened Wrappers
  import opened Text
  import opened OptimizationTypes

  const Name: string := "Memoization"

  const Keywords: seq<string> := ["compute", "calculate", "hash", "fib", "factorial", "cost", "score"]

  /** `applies`: the lower-cased name (a missing one read as empty)
      contains one of the keywords. */
  predicate Applies(node: MethodAst, ctx: RuleContext)
  {
    var lower := ToLower(node.name.GetOr(""));
    exists k :: 0 <= k < |Keywords| && Contains(lower, Keywords[k])
  }

  /** The message text after `Method '<class>.<method>`, for a method with
      `params` parameters and `n` loops. */
  function Tail(params: nat, n: nat): string
  {
    "(" + NatToString(params) + " params)' contains " + NatToString(n)
    + " loop(s) and its name suggests "
    + "a deterministic computation. If "
    + "this method is called "
    + "frequently with the same "
    + "arguments, consider adding "
    + "memoization (for example, "
    + "caching results in a Map keyed "
    + "by the input parameters) to "
    + "avoid repeated work."
  }

  /** `analyze`: nothing without loops; otherwise a finding at the file,
      high from two loops on and medium for one, never low. */
  function Analyze(node: MethodAst, ctx: RuleContext): (r: Option<AgentResult>)
    ensures r.None? <==> LoopCount(node) == 0
    ensures r.Some? ==> r.value.message == MemoizationMessage(ctx, node.paramCount, LoopCount(node))
                        && r.value.location == ctx.filePath
    ensures r.Some? ==> (r.value.severity == High <==> LoopCount(node) >= 2)
    ensures r.Some? ==> r.value.severity != Low
  {
    var loopCount := LoopCount(node);
    if loopCount == 0 then None
    else
      var severity := if loopCount >= 2 then High else Medium;
      Some(AgentResult(MemoizationMessage(ctx, node.paramCount, loopCount), severity, ctx.filePath))
  }

  /** The keywords are lower case, so they are found in any casing of the
      name: a name holding a keyword as written applies. */
  lemma KeywordInName(node: MethodAst, ctx: RuleContext, k: nat)
    requires k < |Keywords| && node.name.Some? && Contains(node.name.value, Keywords[k])
    ensures Applies(node, ctx)
  {
    var name := node.name.value;
    var i: nat :| i <= |name| && IsAt(name, Keywords[k], i);
    var lower := ToLower(name);
    assert lower[i..i + |Keywords[k]|] == Keywords[k] by {
      forall t | 0 <= t < |Keywords[k]|
        ensures lower[i + t] == Keywords[k][t]
      {
        assert name[i + t] == name[i..i + |Keywords[k]|][t];
      }
    }
    assert IsAt(lower, Keywords[k], i);
  }

  /** A method named like a computation but without loops passes `applies`
      and yet reports nothing. */
  lemma AppliesWithoutLoops(node: MethodAst, ctx: RuleContext)
    requires Applies(node, ctx) && LoopCount(node) == 0
    ensures Analyze(node, ctx).None?
  {
  }
}
