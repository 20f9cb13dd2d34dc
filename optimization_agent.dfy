/** The optimization agent: every rule, in order, on every method of every
    class of a summarised Java file, keeping the findings of the rules that
    apply and report. */
module OptimizationAgent {
  import opened Wrappers
  import opened Text
  import opened OptimizationTypes
  import LoopOptimizationRule
  import AlgorithmChoiceRule
  import MemoizationRule

  /** The five rules of the agent. The map-versus-object and
      array-includes-versus-set rules never apply: the summarised AST holds
      nothing they could inspect. */
  datatype RuleKind = LoopOptimization | AlgorithmChoice | MapVsObject | ArrayIncludesVsSet | Memoization

  datatype ClassAst = ClassAst(name: string, methods: Option<seq<MethodAst>>)

  /** The summarised file; `classes` may be missing. */
  datatype FileAst = FileAst(classes: Option<seq<ClassAst>>)

  /** `rule.applies(method, context)`. */
  predicate Applies(rule: RuleKind, node: MethodAst, ctx: RuleContext)
  {
    match rule
    case LoopOptimization => LoopOptimizationRule.Applies(node, ctx)
    case AlgorithmChoice => AlgorithmChoiceRule.Applies(node, ctx)
    case MapVsObject => false
    case ArrayIncludesVsSet => false
    case Memoization => MemoizationRule.Applies(node, ctx)
  }

  /** `rule.analyze(method, context)`. */
  function Analyze(rule: RuleKind, node: MethodAst, ctx: RuleContext): Option<AgentResult>
  {
    match rule
    case LoopOptimization => LoopOptimizationRule.Analyze(node, ctx)
    case AlgorithmChoice => AlgorithmChoiceRule.Analyze(node, ctx)
    case MapVsObject => None
    case ArrayIncludesVsSet => None
    case Memoization => MemoizationRule.Analyze(node, ctx)
  }

  /** The text of a finding's message, as the rule that wrote it renders
      it; every message opens with `Method '<class>.<method>`. */
  function MessageText(m: Message): (r: string)
    ensures StartsWith(r, MethodHead(m.ctx))
  {
    match m
    case LoopMessage(ctx, n) => Headed(ctx, "'" + LoopOptimizationRule.Tail(n))
    case AlgorithmMessage(ctx, n) => Headed(ctx, "'" + AlgorithmChoiceRule.Tail(n))
    case MemoizationMessage(ctx, params, n) => Headed(ctx, MemoizationRule.Tail(params, n))
  }

  /** What one rule adds: its finding when it applies and reports. */
  function RuleFinding(rule: RuleKind, node: MethodAst, ctx: RuleContext): (r: seq<AgentResult>)
    ensures r == [] || (|r| == 1 && r[0].location == ctx.filePath)
  {
    if Applies(rule, node, ctx) then
      match Analyze(rule, node, ctx)
      case Some(res) => [res]
      case None => []
    else []
  }

  /** The findings of the first `k` rules on one method. */
  function MethodFindings(rules: seq<RuleKind>, k: nat, node: MethodAst, ctx: RuleContext): (r: seq<AgentResult>)
    requires k <= |rules|
    ensures |r| <= k
  {
    if k == 0 then [] else MethodFindings(rules, k - 1, node, ctx) + RuleFinding(rules[k - 1], node, ctx)
  }

  /** The rule context of a method. A method without a name reaches the
      messages' template literals as `undefined`, which they print as the
      text "undefined". */
  function ContextOf(filePath: string, cls: ClassAst, node: MethodAst): RuleContext
  {
    RuleContext(filePath, cls.name, node.name.GetOr("undefined"))
  }

  function MethodsOf(cls: ClassAst): seq<MethodAst>
  {
    cls.methods.GetOr([])
  }

  /** The findings on the first `m` methods of a class. */
  function ClassFindings(rules: seq<RuleKind>, filePath: string, cls: ClassAst, m: nat): (r: seq<AgentResult>)
    requires m <= |MethodsOf(cls)|
  {
    if m == 0 then []
    else
      var node := MethodsOf(cls)[m - 1];
      ClassFindings(rules, filePath, cls, m - 1) + MethodFindings(rules, |rules|, node, ContextOf(filePath, cls, node))
  }

  function ClassesOf(ast: FileAst): seq<ClassAst>
  {
    ast.classes.GetOr([])
  }

  /** The number of methods of the first `c` classes. */
  function MethodCount(classes: seq<ClassAst>, c: nat): nat
    requires c <= |classes|
  {
    if c == 0 then 0 else MethodCount(classes, c - 1) + |MethodsOf(classes[c - 1])|
  }

  /** The findings on the first `c` classes of a file. */
  function FileFindings(rules: seq<RuleKind>, filePath: string, classes: seq<ClassAst>, c: nat): (r: seq<AgentResult>)
    requires c <= |classes|
  {
    if c == 0 then []
    else
      var cls := classes[c - 1];
      FileFindings(rules, filePath, classes, c - 1) + ClassFindings(rules, filePath, cls, |MethodsOf(cls)|)
  }

  /** What `analyzeJavaAst(filePath, ast)` returns for the given rules. */
  function ResultsOf(rules: seq<RuleKind>, filePath: string, ast: FileAst): (r: seq<AgentResult>)
    ensures ast.classes.None? ==> r == []
  {
    FileFindings(rules, filePath, ClassesOf(ast), |ClassesOf(ast)|)
  }

  class Agent {
    const rules: seq<RuleKind>

    /** The five rules, in the order they run. */
    constructor ()
      ensures rules == [LoopOptimization, AlgorithmChoice, MapVsObject, ArrayIncludesVsSet, Memoization]
    {
      rules := [LoopOptimization, AlgorithmChoice, MapVsObject, ArrayIncludesVsSet, Memoization];
    }

    /** `analyzeJavaAst(filePath, ast)`: by class, then method, then rule. */
    method AnalyzeJavaAst(filePath: string, ast: FileAst) returns (results: seq<AgentResult>)
      ensures results == ResultsOf(rules, filePath, ast)
    {
      results := [];
      var classes := ClassesOf(ast);
      for c := 0 to |classes|
        invariant results == FileFindings(rules, filePath, classes, c)
      {
        var found := AnalyzeClass(filePath, classes[c]);
        results := results + found;
      }
    }

    /** The loop over the methods of one class. */
    method AnalyzeClass(filePath: string, cls: ClassAst) returns (found: seq<AgentResult>)
      ensures found == ClassFindings(rules, filePath, cls, |MethodsOf(cls)|)
    {
      found := [];
      var methods := MethodsOf(cls);
      for m := 0 to |methods|
        invariant found == ClassFindings(rules, filePath, cls, m)
      {
        var node := methods[m];
        var more := RunRules(node, ContextOf(filePath, cls, node));
        found := found + more;
      }
    }

    /** The loop over the rules on one method. */
    method RunRules(node: MethodAst, context: RuleContext) returns (found: seq<AgentResult>)
      ensures found == MethodFindings(rules, |rules|, node, context)
    {
      found := [];
      for k := 0 to |rules|
        invariant found == MethodFindings(rules, k, node, context)
      {
        var rule := rules[k];
        if Applies(rule, node, context) {
          var res := Analyze(rule, node, context);
          if res.Some? {
            found := found + [res.value];
          }
        }
      }
    }
  }

  // ---------------------------------------------------------------------
  // What the agent reports
  // ---------------------------------------------------------------------

  const DefaultRules: seq<RuleKind> := [LoopOptimization, AlgorithmChoice, MapVsObject, ArrayIncludesVsSet, Memoization]

  /** At most one finding per rule and method. */
  lemma ResultCountBound(rules: seq<RuleKind>, filePath: string, ast: FileAst)
    ensures |ResultsOf(rules, filePath, ast)| <= MethodCount(ClassesOf(ast), |ClassesOf(ast)|) * |rules|
  {
    FileFindingsBound(rules, filePath, ClassesOf(ast), |ClassesOf(ast)|);
  }

  lemma {:induction false} ClassFindingsBound(rules: seq<RuleKind>, filePath: string, cls: ClassAst, m: nat)
    requires m <= |MethodsOf(cls)|
    ensures |ClassFindings(rules, filePath, cls, m)| <= m * |rules|
  {
    if m > 0 {
      var node := MethodsOf(cls)[m - 1];
      ClassFindingsBound(rules, filePath, cls, m - 1);
      var here := MethodFindings(rules, |rules|, node, ContextOf(filePath, cls, node));
      assert |ClassFindings(rules, filePath, cls, m)| == |ClassFindings(rules, filePath, cls, m - 1)| + |here|;
      SumBound(|ClassFindings(rules, filePath, cls, m - 1)|, |here|, m - 1, 1, |rules|,
               |ClassFindings(rules, filePath, cls, m)|, m);
    }
  }

  lemma {:induction false} FileFindingsBound(rules: seq<RuleKind>, filePath: string, classes: seq<ClassAst>, c: nat)
    requires c <= |classes|
    ensures |FileFindings(rules, filePath, classes, c)| <= MethodCount(classes, c) * |rules|
  {
    if c > 0 {
      var cls := classes[c - 1];
      var prev := FileFindings(rules, filePath, classes, c - 1);
      var here := ClassFindings(rules, filePath, cls, |MethodsOf(cls)|);
      assert |FileFindings(rules, filePath, classes, c)| == |prev| + |here|;
      FileFindingsBound(rules, filePath, classes, c - 1);
      ClassFindingsBound(rules, filePath, cls, |MethodsOf(cls)|);
      SumBound(|prev|, |here|, MethodCount(classes, c - 1), |MethodsOf(cls)|, |rules|,
               |FileFindings(rules, filePath, classes, c)|, MethodCount(classes, c));
    }
  }

  /** Two counts bounded by `a * k` and `b * k` add up to at most `(a + b) * k`. */
  lemma SumBound(x: nat, y: nat, a: nat, b: nat, k: nat, sum: nat, count: nat)
    requires x <= a * k && y <= b * k
    requires sum == x + y && count == a + b
    ensures sum <= count * k
  {
    assert (a + b) * k == a * k + b * k;
  }

  /** With the agent's rules a method draws at most three findings: the two
      inert rules never report. */
  lemma AtMostThreePerMethod(node: MethodAst, ctx: RuleContext)
    ensures |MethodFindings(DefaultRules, |DefaultRules|, node, ctx)| <= 3
  {
    assert MethodFindings(DefaultRules, 1, node, ctx) == RuleFinding(LoopOptimization, node, ctx);
    assert MethodFindings(DefaultRules, 2, node, ctx)
           == RuleFinding(LoopOptimization, node, ctx) + RuleFinding(AlgorithmChoice, node, ctx);
    assert MethodFindings(DefaultRules, 4, node, ctx) == MethodFindings(DefaultRules, 2, node, ctx);
    assert MethodFindings(DefaultRules, 5, node, ctx)
           == MethodFindings(DefaultRules, 4, node, ctx) + RuleFinding(Memoization, node, ctx);
  }

  /** A method without loops draws no finding at all. */
  lemma {:induction false} NoLoopsNoFindings(rules: seq<RuleKind>, k: nat, node: MethodAst, ctx: RuleContext)
    requires k <= |rules| && LoopCount(node) == 0
    ensures MethodFindings(rules, k, node, ctx) == []
  {
    if k > 0 {
      NoLoopsNoFindings(rules, k - 1, node, ctx);
      assert Analyze(rules[k - 1], node, ctx).None?;
    }
  }

  /** A method with loops draws, in order, the loop-optimization and the
      algorithm-choice findings, and a memoization finding exactly when its
      name suggests a computation. */
  lemma LoopingMethod(node: MethodAst, ctx: RuleContext)
    requires LoopCount(node) > 0
    ensures var r := MethodFindings(DefaultRules, |DefaultRules|, node, ctx);
            |r| == (if MemoizationRule.Applies(node, ctx) then 3 else 2)
            && r[0] == LoopOptimizationRule.Analyze(node, ctx).value
            && r[1] == AlgorithmChoiceRule.Analyze(node, ctx).value
  {
    assert MethodFindings(DefaultRules, 1, node, ctx) == RuleFinding(LoopOptimization, node, ctx);
    assert MethodFindings(DefaultRules, 2, node, ctx)
           == RuleFinding(LoopOptimization, node, ctx) + RuleFinding(AlgorithmChoice, node, ctx);
    assert MethodFindings(DefaultRules, 4, node, ctx) == MethodFindings(DefaultRules, 2, node, ctx);
    assert MethodFindings(DefaultRules, 5, node, ctx)
           == MethodFindings(DefaultRules, 4, node, ctx) + RuleFinding(Memoization, node, ctx);
    assert RuleFinding(LoopOptimization, node, ctx) == [LoopOptimizationRule.Analyze(node, ctx).value];
    assert RuleFinding(AlgorithmChoice, node, ctx) == [AlgorithmChoiceRule.Analyze(node, ctx).value];
  }

  /** The findings follow the classes: analysing the classes of `a` then
      those of `b` is analysing `a + b`. */
  lemma ClassesInOrder(rules: seq<RuleKind>, filePath: string, a: seq<ClassAst>, b: seq<ClassAst>)
    ensures FileFindings(rules, filePath, a + b, |a + b|)
            == FileFindings(rules, filePath, a, |a|) + FileFindings(rules, filePath, b, |b|)
  {
    ClassesSplit(rules, filePath, a, b, |b|);
  }

  /** The first `|a| + k` classes of `a + b` are all of `a` and the first `k` of `b`. */
  lemma {:induction false} ClassesSplit(rules: seq<RuleKind>, filePath: string, a: seq<ClassAst>, b: seq<ClassAst>, k: nat)
    requires k <= |b|
    ensures FileFindings(rules, filePath, a + b, |a| + k)
            == FileFindings(rules, filePath, a, |a|) + FileFindings(rules, filePath, b, k)
    decreases k
  {
    var ab := a + b;
    if k == 0 {
      assert ab[..|a|] == a[..|a|];
      FileFindingsPrefix(rules, filePath, ab, a, |a|);
    } else {
      ClassesSplit(rules, filePath, a, b, k - 1);
      var last := b[k - 1];
      assert ab[|a| + k - 1] == last;
      var t := ClassFindings(rules, filePath, last, |MethodsOf(last)|);
      assert FileFindings(rules, filePath, ab, |a| + k) == FileFindings(rules, filePath, ab, |a| + k - 1) + t;
      assert FileFindings(rules, filePath, b, k) == FileFindings(rules, filePath, b, k - 1) + t;
      Regroup(FileFindings(rules, filePath, ab, |a| + k), FileFindings(rules, filePath, ab, |a| + k - 1),
              FileFindings(rules, filePath, a, |a|), FileFindings(rules, filePath, b, k - 1),
              t, FileFindings(rules, filePath, b, k));
    }
  }

  lemma Regroup(whole: seq<AgentResult>, init: seq<AgentResult>, x: seq<AgentResult>, y: seq<AgentResult>,
                t: seq<AgentResult>, yt: seq<AgentResult>)
    requires whole == init + t && init == x + y && yt == y + t
    ensures whole == x + yt
  {
  }

  /** The findings on a prefix depend only on that prefix. */
  lemma {:induction false} FileFindingsPrefix(rules: seq<RuleKind>, filePath: string, xs: seq<ClassAst>, ys: seq<ClassAst>, c: nat)
    requires c <= |xs| && c <= |ys| && xs[..c] == ys[..c]
    ensures FileFindings(rules, filePath, xs, c) == FileFindings(rules, filePath, ys, c)
    decreases c
  {
    if c > 0 {
      assert xs[..c - 1] == ys[..c - 1] by {
        assert xs[..c - 1] == xs[..c][..c - 1];
        assert ys[..c - 1] == ys[..c][..c - 1];
      }
      assert xs[c - 1] == xs[..c][c - 1] == ys[..c][c - 1] == ys[c - 1];
      FileFindingsPrefix(rules, filePath, xs, ys, c - 1);
    }
  }
}
