/** The static analyzer's rule engine: how a violation is assembled from the
    rule table, the switch-without-default style rule, and the
    metric-threshold rules over the per-method metrics of a file. */
module RuleEngine {
  import opened Wrappers
  import opened Text
  import opened CondTree
  import AstParser

  // ---------------------------------------------------------------------
  // The rule table and violations
  // ---------------------------------------------------------------------

  /** One rule of the table, as `rules.json` describes it. */
  datatype Rule = Rule(desc: string, severity: string)

  /** The rule table: its categories in key order, each mapping rule ids to
      their rules. The table is read from disk when the engine is built;
      here it is a value handed to every operation. */
  type RuleTable = seq<map<string, Rule>>

  /** What a violation's message says; `Render` gives its text. */
  datatype Message =
    | MissingDefault(className: Option<string>, name: Option<string>)
    | ManyClasses(count: nat)
    | HighComplexity(complexity: int, className: Option<string>, methodName: Option<string>)
    | LargeFunction(size: int, className: Option<string>, methodName: Option<string>)
    | DeepNesting(depth: int, className: Option<string>, methodName: Option<string>)

  /** The rule ids the modelled checks raise; `Id` gives their text. */
  datatype RuleId = QA003 | QA004 | QA006 | QA007 | QA008

  function Id(r: RuleId): string
  {
    match r
    case QA003 => "QA003"
    case QA004 => "QA004"
    case QA006 => "QA006"
    case QA007 => "QA007"
    case QA008 => "QA008"
  }

  /** A violation; its `description` is the text of its message (see
      `CreateViolation`). */
  datatype Violation = Violation(ruleId: RuleId, message: Message, severity: string, location: string)

  const UnknownRule: Rule := Rule("Unknown rule", "low")

  /** `getRule`: the rule of the first category that defines `ruleId`. */
  function GetRule(rules: RuleTable, ruleId: string): Rule
  {
    if rules == [] then UnknownRule
    else if ruleId in rules[0] then rules[0][ruleId]
    else GetRule(rules[1..], ruleId)
  }

  /** The first category defining a rule id decides its rule. */
  lemma {:induction false} GetRuleFirst(rules: RuleTable, ruleId: string, k: nat)
    requires k < |rules| && ruleId in rules[k]
    requires forall j :: 0 <= j < k ==> ruleId !in rules[j]
    ensures GetRule(rules, ruleId) == rules[k][ruleId]
  {
    if k > 0 {
      assert ruleId !in rules[0];
      assert forall j :: 0 <= j < k - 1 ==> rules[1..][j] == rules[j + 1];
      GetRuleFirst(rules[1..], ruleId, k - 1);
    }
  }

  /** A rule id no category defines gets the unknown rule, of severity low. */
  lemma {:induction false} GetRuleUnknown(rules: RuleTable, ruleId: string)
    requires forall k :: 0 <= k < |rules| ==> ruleId !in rules[k]
    ensures GetRule(rules, ruleId) == Rule("Unknown rule", "low")
  {
    if rules != [] {
      assert forall k :: 0 <= k < |rules| - 1 ==> rules[1..][k] == rules[k + 1];
      GetRuleUnknown(rules[1..], ruleId);
    }
  }

  /** A method record as the engine reads it: its name, the line properties
      a parser may set, its conditional kinds and its conditionals tree. */
  datatype MethodNode = MethodNode(name: Option<string>, positionLine: Option<nat>, line: Option<nat>,
                                   conditionals: Option<seq<string>>, conditionalsTree: Option<seq<Cond>>)

  /** A string property read for its truthiness. */
  predicate Present(s: Option<string>)
  {
    s.Some? && s.value != ""
  }

  /** A line property read for its truthiness: line 0 counts as absent. */
  predicate LinePresent(n: Option<nat>)
  {
    n.Some? && n.value != 0
  }

  /** `node.position?.line || node.line || "?"`, as text. */
  function LineText(node: MethodNode): (r: string)
    ensures r == "?" <==> !LinePresent(node.positionLine) && !LinePresent(node.line)
  {
    if LinePresent(node.positionLine) then NatToString(node.positionLine.value)
    else if LinePresent(node.line) then NatToString(node.line.value)
    else "?"
  }

  /** `getNodeLocation`: "file > name" for a named node, "file:line" otherwise. */
  function NodeLocation(file: string, node: MethodNode): (r: string)
    ensures |r| > |file| + 1 && r[..|file|] == file
    ensures r[|file|] == ' ' <==> Present(node.name)
  {
    if Present(node.name) then file + " > " + node.name.value
    else
      var r := file + ":" + LineText(node);
      assert r[|file|] == ':';
      r
  }

  /** A named node is located by its name, whatever lines it carries. */
  lemma NamedLocation(file: string, node: MethodNode)
    requires Present(node.name)
    ensures NodeLocation(file, node) == file + " > " + node.name.value
  {
  }

  /** An unnamed node without a line is located at line "?". */
  lemma UnplacedLocation(file: string, node: MethodNode)
    requires !Present(node.name) && !LinePresent(node.positionLine) && !LinePresent(node.line)
    ensures NodeLocation(file, node) == file + ":?"
  {
  }

  /** `createViolation`: the rule's severity, and the node's location or
      the bare file name when there is no node. The description is the
      message, which is never empty (`RenderNonEmpty`), so the rule's own
      description is never used. */
  function CreateViolation(rules: RuleTable, ruleId: RuleId, file: string, node: Option<MethodNode>, message: Message): (r: Violation)
    ensures r.ruleId == ruleId && r.message == message && r.severity == GetRule(rules, Id(ruleId)).severity
    ensures node.None? ==> r.location == file
    ensures node.Some? ==> r.location == NodeLocation(file, node.value)
  {
    Violation(ruleId, message, GetRule(rules, Id(ruleId)).severity, if node.Some? then NodeLocation(file, node.value) else file)
  }

  /** How a template literal shows an optional string: absent reads "undefined". */
  function Shown(s: Option<string>): string
  {
    if s.Some? then s.value else "undefined"
  }

  function IntText(v: int): string
  {
    if v >= 0 then NatToString(v) else "-" + NatToString(-v)
  }

  function Where(className: Option<string>, methodName: string): string
  {
    Shown(className) + "." + methodName + "()"
  }

  /** `method.name || "unknownMethod"`. */
  function MethodName(name: Option<string>): string
  {
    if Present(name) then name.value else "unknownMethod"
  }

  /** The text of a message, as the engine's template literals build it. */
  function Render(m: Message): string
  {
    match m
    case MissingDefault(c, n) => "Switch without default case in " + Where(c, Shown(n))
    case ManyClasses(n) => "File contains " + NatToString(n) + " classes"
    case HighComplexity(v, c, n) => "High cyclomatic complexity (" + IntText(v) + ") in " + Where(c, MethodName(n))
    case LargeFunction(v, c, n) => "Large function (" + IntText(v) + " statements) in " + Where(c, MethodName(n))
    case DeepNesting(v, c, n) => "Deep nesting (" + IntText(v) + " levels) in " + Where(c, MethodName(n))
  }

  /** `message || rule.desc` always picks the message: no message is empty. */
  lemma RenderNonEmpty(m: Message)
    ensures |Render(m)| > 0
  {
  }

  /** A violation's `description`. */
  function Description(v: Violation): (r: string)
    ensures r != ""
  {
    RenderNonEmpty(v.message);
    Render(v.message)
  }

  /** The number of violations with rule id `ruleId`. */
  function CountRule(vs: seq<Violation>, ruleId: RuleId): (n: nat)
    ensures n <= |vs|
  {
    if vs == [] then 0
    else CountRule(vs[..|vs| - 1], ruleId) + (if vs[|vs| - 1].ruleId == ruleId then 1 else 0)
  }

  /** No violation of `vs` has rule id `ruleId`. */
  predicate NoRule(vs: seq<Violation>, ruleId: RuleId)
  {
    forall v :: v in vs ==> v.ruleId != ruleId
  }

  lemma {:induction false} NoRuleCount(vs: seq<Violation>, ruleId: RuleId)
    requires NoRule(vs, ruleId)
    ensures CountRule(vs, ruleId) == 0
    decreases |vs|
  {
    if vs != [] {
      assert vs[|vs| - 1] in vs;
      NoRuleCount(vs[..|vs| - 1], ruleId);
    }
  }

  lemma {:induction false} CountRuleAppend(a: seq<Violation>, b: seq<Violation>, ruleId: RuleId)
    ensures CountRule(a + b, ruleId) == CountRule(a, ruleId) + CountRule(b, ruleId)
    decreases |b|
  {
    if b == [] {
      assert a + b == a;
    } else {
      assert (a + b)[..|a + b| - 1] == a + b[..|b| - 1];
      CountRuleAppend(a, b[..|b| - 1], ruleId);
    }
  }

  // ---------------------------------------------------------------------
  // Switch statements without a default case
  // ---------------------------------------------------------------------

  predicate IsDefault(c: Cond)
  {
    c.kind == "default" || c.kind == "DefaultStatement"
  }

  /** `hasDefaultInTree` over an array: some entry is a default case, or has
      one in its then-block or in an else-block that is an array. An
      else-if stored as an object is not an array and is never searched. */
  function HasDefault(tree: seq<Cond>): bool
    decreases tree
  {
    if tree == [] then false
    else NodeHasDefault(tree[0]) || HasDefault(tree[1..])
  }

  function NodeHasDefault(c: Cond): bool
    decreases c
  {
    IsDefault(c) || HasDefault(c.thenBlock) || (c.elseBlock.ElseList? && HasDefault(c.elseBlock.items))
  }

  /** `hasDefaultInTree(tree)` on an optional tree: false when it is absent. */
  predicate TreeHasDefault(tree: Option<seq<Cond>>)
  {
    tree.Some? && HasDefault(tree.value)
  }

  /** The entries the search looks at, in search order. */
  function Searched(tree: seq<Cond>): seq<Cond>
    decreases tree
  {
    if tree == [] then [] else NodeSearched(tree[0]) + Searched(tree[1..])
  }

  function NodeSearched(c: Cond): seq<Cond>
    decreases c
  {
    [c] + Searched(c.thenBlock) + (if c.elseBlock.ElseList? then Searched(c.elseBlock.items) else [])
  }

  /** The search finds a default case exactly when one of the entries it
      looks at is one. */
  lemma {:induction false} HasDefaultIff(tree: seq<Cond>)
    ensures HasDefault(tree) <==> exists c :: c in Searched(tree) && IsDefault(c)
    decreases tree
  {
    if tree != [] {
      NodeHasDefaultIff(tree[0]);
      HasDefaultIff(tree[1..]);
    }
  }

  lemma {:induction false} NodeHasDefaultIff(c: Cond)
    ensures NodeHasDefault(c) <==> exists x :: x in NodeSearched(c) && IsDefault(x)
    decreases c
  {
    HasDefaultIff(c.thenBlock);
    if c.elseBlock.ElseList? {
      HasDefaultIff(c.elseBlock.items);
    }
  }

  /** The parser's trees hold only IfStatement and Statement entries, so the
      search never finds a default case in them. */
  lemma {:induction false} ParserTreeHasNoDefault(tree: seq<Cond>)
    requires forall c :: c in tree ==> AstParser.Shaped(c)
    ensures !HasDefault(tree)
    decreases tree
  {
    if tree != [] {
      assert tree[0] in tree;
      ParserNodeHasNoDefault(tree[0]);
      assert forall c :: c in tree[1..] ==> c in tree;
      ParserTreeHasNoDefault(tree[1..]);
    }
  }

  lemma {:induction false} ParserNodeHasNoDefault(c: Cond)
    requires AstParser.Shaped(c)
    ensures !NodeHasDefault(c)
    decreases c
  {
    ParserTreeHasNoDefault(c.thenBlock);
    if c.elseBlock.ElseList? {
      ParserTreeHasNoDefault(c.elseBlock.items);
    }
  }

  /** `method.conditionals?.includes("switch")` without a default in the tree. */
  predicate SwitchWithoutDefault(m: MethodNode)
  {
    m.conditionals.Some? && "switch" in m.conditionals.value && !TreeHasDefault(m.conditionalsTree)
  }

  /** A class record as `checkStyleIssues` reads it; `methods` is absent
      when the property is missing or not an array. */
  datatype ClassNode = ClassNode(name: Option<string>, methods: Option<seq<MethodNode>>)

  /** What `checkStyleIssues` pushes for the first `k` methods. */
  function StyleViolations(rules: RuleTable, cls: ClassNode, file: string, ms: seq<MethodNode>, k: nat): (r: seq<Violation>)
    requires k <= |ms|
  {
    if k == 0 then []
    else
      var m := ms[k - 1];
      StyleViolations(rules, cls, file, ms, k - 1)
      + (if SwitchWithoutDefault(m) then [CreateViolation(rules, QA003, file, Some(m), MissingDefault(cls.name, m.name))] else [])
  }

  /** `checkStyleIssues(node, fileName, results)`. */
  method CheckStyleIssues(rules: RuleTable, cls: ClassNode, fileName: string, results: seq<Violation>)
    returns (out: seq<Violation>)
    ensures cls.methods.None? ==> out == results
    ensures cls.methods.Some? ==>
              out == results + StyleViolations(rules, cls, fileName, cls.methods.value, |cls.methods.value|)
  {
    out := results;
    if cls.methods.Some? {
      var ms := cls.methods.value;
      for i := 0 to |ms|
        invariant out == results + StyleViolations(rules, cls, fileName, ms, i)
      {
        var m := ms[i];
        if m.conditionals.Some? && "switch" in m.conditionals.value {
          var hasDefault := m.conditionalsTree.Some? && HasDefault(m.conditionalsTree.value);
          if !hasDefault {
            out := out + [CreateViolation(rules, QA003, fileName, Some(m), MissingDefault(cls.name, m.name))];
          }
        }
      }
    }
  }

  /** The number of methods whose conditionals include a switch. */
  function SwitchCount(ms: seq<MethodNode>, k: nat): (n: nat)
    requires k <= |ms|
    ensures n <= k
  {
    if k == 0 then 0
    else
      var m := ms[k - 1];
      SwitchCount(ms, k - 1) + (if m.conditionals.Some? && "switch" in m.conditionals.value then 1 else 0)
  }

  /** Every style violation is a QA003 at the severity the table gives it,
      and there is at most one per method. */
  lemma {:induction false} StyleViolationsAreQA003(rules: RuleTable, cls: ClassNode, file: string, ms: seq<MethodNode>, k: nat)
    requires k <= |ms|
    ensures |StyleViolations(rules, cls, file, ms, k)| <= SwitchCount(ms, k)
    ensures CountRule(StyleViolations(rules, cls, file, ms, k), QA003) == |StyleViolations(rules, cls, file, ms, k)|
  {
    if k > 0 {
      StyleViolationsAreQA003(rules, cls, file, ms, k - 1);
      var m := ms[k - 1];
      var last := if SwitchWithoutDefault(m) then [CreateViolation(rules, QA003, file, Some(m), MissingDefault(cls.name, m.name))] else [];
      CountRuleAppend(StyleViolations(rules, cls, file, ms, k - 1), last, QA003);
    }
  }

  /** With the trees the parser builds, every method with a switch is
      reported, default case or not. */
  lemma {:induction false} ParserSwitchesAllReported(rules: RuleTable, cls: ClassNode, file: string, ms: seq<MethodNode>, k: nat)
    requires k <= |ms|
    requires forall j :: 0 <= j < |ms| && ms[j].conditionalsTree.Some? ==>
               forall c :: c in ms[j].conditionalsTree.value ==> AstParser.Shaped(c)
    ensures |StyleViolations(rules, cls, file, ms, k)| == SwitchCount(ms, k)
  {
    if k > 0 {
      ParserSwitchesAllReported(rules, cls, file, ms, k - 1);
      var m := ms[k - 1];
      if m.conditionalsTree.Some? {
        ParserTreeHasNoDefault(m.conditionalsTree.value);
      }
    }
  }

  // ---------------------------------------------------------------------
  // Metric thresholds
  // ---------------------------------------------------------------------

  /** One method's metrics; a metric that is absent never exceeds a limit. */
  datatype MethodMetrics = MethodMetrics(name: Option<string>, cyclomaticComplexity: Option<int>,
                                         functionSize: Option<int>, nestingDepth: Option<int>)

  datatype ClassMetrics = ClassMetrics(className: Option<string>, methods: seq<MethodMetrics>)

  predicate Exceeds(v: Option<int>, limit: int)
  {
    v.Some? && v.value > limit
  }

  function ComplexityViolation(rules: RuleTable, file: string, cls: ClassMetrics, m: MethodMetrics): (r: seq<Violation>)
    ensures |r| == (if Exceeds(m.cyclomaticComplexity, 10) then 1 else 0)
    ensures forall v :: v in r ==> v.ruleId == QA006
  {
    if Exceeds(m.cyclomaticComplexity, 10) then
      [CreateViolation(rules, QA006, file, None,
                       HighComplexity(m.cyclomaticComplexity.value, cls.className, m.name))]
    else []
  }

  function SizeViolation(rules: RuleTable, file: string, cls: ClassMetrics, m: MethodMetrics): (r: seq<Violation>)
    ensures |r| == (if Exceeds(m.functionSize, 50) then 1 else 0)
    ensures forall v :: v in r ==> v.ruleId == QA007
  {
    if Exceeds(m.functionSize, 50) then
      [CreateViolation(rules, QA007, file, None,
                       LargeFunction(m.functionSize.value, cls.className, m.name))]
    else []
  }

  function NestingViolation(rules: RuleTable, file: string, cls: ClassMetrics, m: MethodMetrics): (r: seq<Violation>)
    ensures |r| == (if Exceeds(m.nestingDepth, 4) then 1 else 0)
    ensures forall v :: v in r ==> v.ruleId == QA008
  {
    if Exceeds(m.nestingDepth, 4) then
      [CreateViolation(rules, QA008, file, None,
                       DeepNesting(m.nestingDepth.value, cls.className, m.name))]
    else []
  }

  /** Every violation is one of the three method thresholds. */
  predicate ThresholdsOnly(vs: seq<Violation>)
  {
    forall v :: v in vs ==> v.ruleId == QA006 || v.ruleId == QA007 || v.ruleId == QA008
  }

  /** What one method contributes, in the order the thresholds are checked. */
  function MethodViolations(rules: RuleTable, file: string, cls: ClassMetrics, m: MethodMetrics): (r: seq<Violation>)
    ensures ThresholdsOnly(r)
  {
    ComplexityViolation(rules, file, cls, m) + SizeViolation(rules, file, cls, m) + NestingViolation(rules, file, cls, m)
  }

  /** What the first `k` methods of a class contribute. */
  function ClassViolations(rules: RuleTable, file: string, cls: ClassMetrics, k: nat): (r: seq<Violation>)
    requires k <= |cls.methods|
    ensures ThresholdsOnly(r)
  {
    if k == 0 then []
    else ClassViolations(rules, file, cls, k - 1) + MethodViolations(rules, file, cls, cls.methods[k - 1])
  }

  /** What the first `k` classes contribute. */
  function ClassesViolations(rules: RuleTable, file: string, classes: seq<ClassMetrics>, k: nat): (r: seq<Violation>)
    requires k <= |classes|
    ensures ThresholdsOnly(r)
  {
    if k == 0 then []
    else ClassesViolations(rules, file, classes, k - 1)
         + ClassViolations(rules, file, classes[k - 1], |classes[k - 1].methods|)
  }

  function ManyClassesViolation(rules: RuleTable, file: string, classes: seq<ClassMetrics>): seq<Violation>
  {
    if |classes| > 1 then
      [CreateViolation(rules, QA004, file, None, ManyClasses(|classes|))]
    else []
  }

  /** What `analyzeMetrics` pushes: the class-count violation, then each
      method's threshold violations, class by class. */
  function MetricsViolations(rules: RuleTable, file: string, classes: seq<ClassMetrics>): seq<Violation>
  {
    ManyClassesViolation(rules, file, classes) + ClassesViolations(rules, file, classes, |classes|)
  }

  /** The body of the inner loop of `analyzeMetrics`: the three threshold
      tests on one method. */
  method CheckMethodMetrics(rules: RuleTable, cls: ClassMetrics, m: MethodMetrics, fileName: string, results: seq<Violation>)
    returns (out: seq<Violation>)
    ensures out == results + MethodViolations(rules, fileName, cls, m)
  {
    out := results;
    if m.cyclomaticComplexity.Some? && m.cyclomaticComplexity.value > 10 {
      out := out + ComplexityViolation(rules, fileName, cls, m);
    }
    if m.functionSize.Some? && m.functionSize.value > 50 {
      out := out + SizeViolation(rules, fileName, cls, m);
    }
    if m.nestingDepth.Some? && m.nestingDepth.value > 4 {
      out := out + NestingViolation(rules, fileName, cls, m);
    }
    Append3(results, ComplexityViolation(rules, fileName, cls, m), SizeViolation(rules, fileName, cls, m),
            NestingViolation(rules, fileName, cls, m));
  }

  /** The inner loop of `analyzeMetrics`: the methods of one class. */
  method AnalyzeClass(rules: RuleTable, cls: ClassMetrics, fileName: string, results: seq<Violation>)
    returns (out: seq<Violation>)
    ensures out == results + ClassViolations(rules, fileName, cls, |cls.methods|)
  {
    out := results;
    for i := 0 to |cls.methods|
      invariant out == results + ClassViolations(rules, fileName, cls, i)
    {
      out := CheckMethodMetrics(rules, cls, cls.methods[i], fileName, out);
      Append2(results, ClassViolations(rules, fileName, cls, i), MethodViolations(rules, fileName, cls, cls.methods[i]));
    }
  }

  lemma Append3<T>(s: seq<T>, a: seq<T>, b: seq<T>, c: seq<T>)
    ensures s + a + b + c == s + (a + b + c)
  {
  }

  lemma Append2<T>(s: seq<T>, a: seq<T>, b: seq<T>)
    ensures s + a + b == s + (a + b)
  {
  }

  /** The outer loop of `analyzeMetrics`: the classes in order. */
  method AnalyzeClasses(rules: RuleTable, classes: seq<ClassMetrics>, fileName: string, results: seq<Violation>)
    returns (out: seq<Violation>)
    ensures out == results + ClassesViolations(rules, fileName, classes, |classes|)
  {
    out := results;
    for i := 0 to |classes|
      invariant out == results + ClassesViolations(rules, fileName, classes, i)
    {
      out := AnalyzeClass(rules, classes[i], fileName, out);
      Append2(results, ClassesViolations(rules, fileName, classes, i),
              ClassViolations(rules, fileName, classes[i], |classes[i].methods|));
    }
  }

  /** `analyzeMetrics(metrics, fileName, results)`. */
  method AnalyzeMetrics(rules: RuleTable, classes: seq<ClassMetrics>, fileName: string, results: seq<Violation>)
    returns (out: seq<Violation>)
    ensures out == results + MetricsViolations(rules, fileName, classes)
  {
    out := results;
    if |classes| > 1 {
      out := out + ManyClassesViolation(rules, fileName, classes);
    }
    assert out == results + ManyClassesViolation(rules, fileName, classes);
    out := AnalyzeClasses(rules, classes, fileName, out);
    Append2(results, ManyClassesViolation(rules, fileName, classes),
            ClassesViolations(rules, fileName, classes, |classes|));
  }

  /** One method draws QA006 exactly when its complexity is over 10, QA007
      exactly when its size is over 50 and QA008 exactly when its nesting is
      over 4, each at most once, and nothing else. */
  lemma MethodThresholds(rules: RuleTable, file: string, cls: ClassMetrics, m: MethodMetrics)
    ensures var vs := MethodViolations(rules, file, cls, m);
            CountRule(vs, QA006) == (if Exceeds(m.cyclomaticComplexity, 10) then 1 else 0)
            && CountRule(vs, QA007) == (if Exceeds(m.functionSize, 50) then 1 else 0)
            && CountRule(vs, QA008) == (if Exceeds(m.nestingDepth, 4) then 1 else 0)
            && |vs| == CountRule(vs, QA006) + CountRule(vs, QA007) + CountRule(vs, QA008)
  {
    var a, b, c := ComplexityViolation(rules, file, cls, m), SizeViolation(rules, file, cls, m),
                   NestingViolation(rules, file, cls, m);
    CountRuleAppend(a, b, QA006);
    CountRuleAppend(a + b, c, QA006);
    CountRuleAppend(a, b, QA007);
    CountRuleAppend(a + b, c, QA007);
    CountRuleAppend(a, b, QA008);
    CountRuleAppend(a + b, c, QA008);
  }

  /** More than one class yields exactly one QA004, placed first; otherwise
      none. */
  lemma MetricsViolationsShape(rules: RuleTable, file: string, classes: seq<ClassMetrics>)
    ensures var vs := MetricsViolations(rules, file, classes);
            CountRule(vs, QA004) == (if |classes| > 1 then 1 else 0)
            && (|classes| > 1 ==> vs[0].ruleId == QA004)
  {
    NoRuleCount(ClassesViolations(rules, file, classes, |classes|), QA004);
    CountRuleAppend(ManyClassesViolation(rules, file, classes),
                    ClassesViolations(rules, file, classes, |classes|), QA004);
  }
}
