// The maintainability agent's per-method metrics: six threshold checks,
// each grading one measurement of a method as Low, Medium or High and
// attaching a penalty.

module MetricsHelper {
  import opened Wrappers
  import opened Seqs
  import opened Text
  import opened CondTree

  datatype Status = Low | Medium | High

  /** The `value` a check reports: a count, the comment ratio as the two
      counts it is computed from, or a list of names. */
  datatype MetricValue = Count(n: nat) | Ratio(comments: nat, total: nat) | Names(text: string)

  /** A check's result; the penalty is in hundredths (0.15 is 15). The
      message text is not modelled. */
  datatype MetricResult = MetricResult(metric: string, value: MetricValue, status: Status, penalty: nat)

  /** The fields of a method record the checks read: the lengths of its
      `loops` and `conditionals` arrays, its parameter names, its
      `commentsCount` and its `conditionalsTree`. */
  datatype MethodRecord = MethodRecord(
    name: string,
    params: seq<string>,
    loops: nat,
    conditionals: nat,
    commentsCount: nat,
    conditionalsTree: seq<Cond>)

  const FunctionLength: string := "Function Length"
  const NestingDepth: string := "Nesting Depth"
  const CyclomaticComplexity: string := "Cyclomatic Complexity"
  const ParameterCount: string := "Parameter Count"
  const CommentRatio: string := "Comment Ratio"
  const NamingClarity: string := "Naming Clarity"

  /** The metric names, in the order `evaluateAllMetrics` reports them. */
  const MetricOrder: seq<string> :=
    [FunctionLength, NestingDepth, CyclomaticComplexity, ParameterCount, CommentRatio, NamingClarity]

  /** How severe a status is: Low < Medium < High. */
  function Rank(s: Status): nat
  {
    match s
    case Low => 0
    case Medium => 1
    case High => 2
  }

  /** The shape every check shares: High with its penalty when the first
      test holds, else Medium with its penalty when the second holds, else
      Low with no penalty. */
  function Grade(metric: string, value: MetricValue, high: bool, medium: bool,
                 highPenalty: nat, mediumPenalty: nat): (r: MetricResult)
    ensures r.metric == metric && r.value == value
    ensures r.status == High <==> high
    ensures r.status == Medium <==> !high && medium
    ensures r.status == Low <==> !high && !medium
    ensures r.penalty == (if high then highPenalty else if medium then mediumPenalty else 0)
  {
    if high then MetricResult(metric, value, High, highPenalty)
    else if medium then MetricResult(metric, value, Medium, mediumPenalty)
    else MetricResult(metric, value, Low, 0)
  }

  // ---------------------------------------------------------------------
  // Function length
  // ---------------------------------------------------------------------

  /** `estimateLOC`: a line count guessed from the method's shape. */
  function EstimateLoc(m: MethodRecord): (r: nat)
    ensures r >= 5
  {
    m.loops * 10 + m.conditionals * 5 + |m.params| * 2 + 5
  }

  /** `realLoc || estimateLOC(method)`: 0 stands for an absent count. */
  function Loc(m: MethodRecord, realLoc: nat): (r: nat)
    ensures r >= 1
    ensures realLoc > 0 ==> r == realLoc
    ensures realLoc == 0 ==> r == EstimateLoc(m)
  {
    if realLoc > 0 then realLoc else EstimateLoc(m)
  }

  function CheckFunctionLength(m: MethodRecord, realLoc: nat): (r: MetricResult)
    ensures r.metric == FunctionLength && r.value == Count(Loc(m, realLoc))
    ensures r.status == High <==> Loc(m, realLoc) > 50
    ensures r.status == Medium <==> 30 < Loc(m, realLoc) <= 50
    ensures r.status == High ==> r.penalty == 15
    ensures r.status == Medium ==> r.penalty == 8
    ensures r.status == Low ==> r.penalty == 0
  {
    var loc := Loc(m, realLoc);
    Grade(FunctionLength, Count(loc), loc > 50, loc > 30, 15, 8)
  }

  /** With no real count, the estimate grows by 10 per loop, 5 per
      conditional and 2 per parameter. */
  lemma EstimateCounts(m: MethodRecord)
    ensures EstimateLoc(m.(loops := m.loops + 1)) == EstimateLoc(m) + 10
    ensures EstimateLoc(m.(conditionals := m.conditionals + 1)) == EstimateLoc(m) + 5
    ensures forall p :: EstimateLoc(m.(params := m.params + [p])) == EstimateLoc(m) + 2
  {
  }

  // ---------------------------------------------------------------------
  // Nesting depth of the conditionals tree
  // ---------------------------------------------------------------------

  /** What one entry adds to the depth of the branch it sits in: 1, and 1
      more for a switch or a case. */
  function Weight(c: Cond): (r: nat)
    ensures 1 <= r <= 2
  {
    if c.kind == "SwitchStatement" || c.kind == "CaseStatement" then 2 else 1
  }

  /** `calculateDepth(nodes)`, with an else-if stored as an object measured
      as a one-entry branch (see ElseDepthAsWritten for the code as
      written). */
  function Depth(nodes: seq<Cond>): (r: nat)
    ensures nodes != [] ==> r >= 1
    decreases nodes
  {
    if nodes == [] then 0
    else Max(Depth(nodes[..|nodes| - 1]), NodeDepth(nodes[|nodes| - 1]))
  }

  /** The depth one entry reaches: its weight on top of its deeper branch. */
  function NodeDepth(c: Cond): (r: nat)
    ensures r >= Weight(c)
    decreases c
  {
    Weight(c) + Max(Depth(c.thenBlock), ElseDepth(c.elseBlock))
  }

  function ElseDepth(e: Else): nat
    decreases e
  {
    match e
    case NoElse => 0
    case ElseIf(node) => NodeDepth(node)
    case ElseList(items) => Depth(items)
  }

  /** `calculateDepth` as written: `for (const node of nodes)` over an
      else-if stored as an object throws, since an object is not iterable. */
  function DepthAsWritten(nodes: seq<Cond>): Result<nat, string>
    decreases nodes
  {
    if nodes == [] then Ok(0)
    else
      match DepthAsWritten(nodes[..|nodes| - 1])
      case Err(e) => Err(e)
      case Ok(d) =>
        match NodeDepthAsWritten(nodes[|nodes| - 1])
        case Err(e) => Err(e)
        case Ok(n) => Ok(Max(d, n))
  }

  function NodeDepthAsWritten(c: Cond): Result<nat, string>
    decreases c
  {
    match DepthAsWritten(c.thenBlock)
    case Err(e) => Err(e)
    case Ok(t) =>
      match ElseDepthAsWritten(c.elseBlock)
      case Err(e) => Err(e)
      case Ok(el) => Ok(Weight(c) + Max(t, el))
  }

  function ElseDepthAsWritten(e: Else): Result<nat, string>
    decreases e
  {
    match e
    case NoElse => Ok(0)
    case ElseIf(_) => Err("TypeError: nodes is not iterable")
    case ElseList(items) => DepthAsWritten(items)
  }

  /** No else-if stored as an object anywhere in the tree. */
  predicate NoElseIf(nodes: seq<Cond>)
    decreases nodes
  {
    forall i :: 0 <= i < |nodes| ==> NoElseIfIn(nodes[i])
  }

  predicate NoElseIfIn(c: Cond)
    decreases c
  {
    NoElseIf(c.thenBlock) && (c.elseBlock.ElseList? ==> NoElseIf(c.elseBlock.items)) && !c.elseBlock.ElseIf?
  }

  /** On trees without else-if objects the code as written and the model
      agree. */
  lemma {:induction false} AsWrittenAgrees(nodes: seq<Cond>)
    requires NoElseIf(nodes)
    ensures DepthAsWritten(nodes) == Ok(Depth(nodes))
    decreases nodes
  {
    if nodes != [] {
      var init, last := nodes[..|nodes| - 1], nodes[|nodes| - 1];
      assert NoElseIf(init) by {
        assert forall i :: 0 <= i < |init| ==> init[i] == nodes[i];
      }
      AsWrittenAgrees(init);
      NodeAgrees(last);
    }
  }

  lemma {:induction false} NodeAgrees(c: Cond)
    requires NoElseIfIn(c)
    ensures NodeDepthAsWritten(c) == Ok(NodeDepth(c))
    decreases c
  {
    AsWrittenAgrees(c.thenBlock);
    if c.elseBlock.ElseList? {
      AsWrittenAgrees(c.elseBlock.items);
    }
  }

  /** The parser stores `if (a) {} else if (b) {}` with the inner `if` as an
      object, and the code as written then fails. */
  lemma ElseIfThrows()
    ensures DepthAsWritten([Cond(IfStatementKind, [], ElseIf(Cond(IfStatementKind, [], NoElse)))]).Err?
  {
    var inner := Cond(IfStatementKind, [], NoElse);
    var outer := Cond(IfStatementKind, [], ElseIf(inner));
    assert [outer][..0] == [];
    assert NodeDepthAsWritten(outer).Err?;
  }

  /** The depth does not depend on how the entries are split or ordered:
      it is the larger depth of the two parts. */
  lemma {:induction false} DepthAppend(a: seq<Cond>, b: seq<Cond>)
    ensures Depth(a + b) == Max(Depth(a), Depth(b))
    decreases |b|
  {
    if b == [] {
      assert a + b == a;
    } else {
      var b0, y := b[..|b| - 1], b[|b| - 1];
      assert (a + b)[..|a + b| - 1] == a + b0;
      assert (a + b)[|a + b| - 1] == y;
      DepthAppend(a, b0);
    }
  }

  /** The number of levels of the tree, each entry counting one. */
  function Height(nodes: seq<Cond>): nat
    decreases nodes
  {
    if nodes == [] then 0
    else Max(Height(nodes[..|nodes| - 1]), NodeHeight(nodes[|nodes| - 1]))
  }

  function NodeHeight(c: Cond): nat
    decreases c
  {
    1 + Max(Height(c.thenBlock), ElseHeight(c.elseBlock))
  }

  function ElseHeight(e: Else): nat
    decreases e
  {
    match e
    case NoElse => 0
    case ElseIf(node) => NodeHeight(node)
    case ElseList(items) => Height(items)
  }

  /** Each level adds 1, and at most 1 more: the depth lies between the
      height and twice the height. */
  lemma {:induction false} DepthBounds(nodes: seq<Cond>)
    ensures Height(nodes) <= Depth(nodes) <= 2 * Height(nodes)
    decreases nodes
  {
    if nodes != [] {
      DepthBounds(nodes[..|nodes| - 1]);
      NodeDepthBounds(nodes[|nodes| - 1]);
    }
  }

  lemma {:induction false} NodeDepthBounds(c: Cond)
    ensures NodeHeight(c) <= NodeDepth(c) <= 2 * NodeHeight(c)
    decreases c
  {
    DepthBounds(c.thenBlock);
    match c.elseBlock
    case NoElse =>
    case ElseIf(node) => NodeDepthBounds(node);
    case ElseList(items) => DepthBounds(items);
  }

  /** `checkNestingDepth(method)` as written: the depth `calculateDepth`
      computes, graded against 3 and 1, or the error it throws on an
      else-if stored as an object. */
  function CheckNestingDepth(m: MethodRecord): (r: Result<MetricResult, string>)
    ensures r.Err? <==> DepthAsWritten(m.conditionalsTree).Err?
    ensures r.Ok? ==> var depth := DepthAsWritten(m.conditionalsTree).value;
            && r.value.metric == NestingDepth && r.value.value == Count(depth)
            && (r.value.status == High <==> depth > 3)
            && (r.value.status == Medium <==> 1 < depth <= 3)
    ensures r.Ok? && r.value.status == High ==> r.value.penalty == 15
    ensures r.Ok? && r.value.status == Medium ==> r.value.penalty == 8
    ensures r.Ok? && r.value.status == Low ==> r.value.penalty == 0
  {
    match DepthAsWritten(m.conditionalsTree)
    case Err(e) => Err(e)
    case Ok(depth) => Ok(Grade(NestingDepth, Count(depth), depth > 3, depth > 1, 15, 8))
  }

  /** Without else-if objects the grade as written is the grade of the
      corrected depth. */
  lemma NestingAgrees(m: MethodRecord)
    requires NoElseIf(m.conditionalsTree)
    ensures CheckNestingDepth(m) == Ok(CheckNestingDepthIntended(m))
  {
    AsWrittenAgrees(m.conditionalsTree);
  }

  /** The same grade of the corrected depth, defined on every tree. */
  function CheckNestingDepthIntended(m: MethodRecord): (r: MetricResult)
    ensures r.metric == NestingDepth && r.value == Count(Depth(m.conditionalsTree))
    ensures r.status == High <==> Depth(m.conditionalsTree) > 3
    ensures r.status == Medium <==> 1 < Depth(m.conditionalsTree) <= 3
    ensures r.status == High ==> r.penalty == 15
    ensures r.status == Medium ==> r.penalty == 8
    ensures r.status == Low ==> r.penalty == 0
  {
    var depth := Depth(m.conditionalsTree);
    Grade(NestingDepth, Count(depth), depth > 3, depth > 1, 15, 8)
  }

  // ---------------------------------------------------------------------
  // Decision points, parameters
  // ---------------------------------------------------------------------

  function CheckComplexity(m: MethodRecord): (r: MetricResult)
    ensures r.metric == CyclomaticComplexity && r.value == Count(m.conditionals + m.loops)
    ensures r.status == High <==> m.conditionals + m.loops > 10
    ensures r.status == Medium <==> 5 < m.conditionals + m.loops <= 10
    ensures r.status == High ==> r.penalty == 15
    ensures r.status == Medium ==> r.penalty == 8
    ensures r.status == Low ==> r.penalty == 0
  {
    var decisionPoints := m.conditionals + m.loops;
    Grade(CyclomaticComplexity, Count(decisionPoints), decisionPoints > 10, decisionPoints > 5, 15, 8)
  }

  function CheckParameters(m: MethodRecord): (r: MetricResult)
    ensures r.metric == ParameterCount && r.value == Count(|m.params|)
    ensures r.status == High <==> |m.params| > 5
    ensures r.status == Medium <==> 3 < |m.params| <= 5
    ensures r.status == High ==> r.penalty == 10
    ensures r.status == Medium ==> r.penalty == 5
    ensures r.status == Low ==> r.penalty == 0
  {
    var paramCount := |m.params|;
    Grade(ParameterCount, Count(paramCount), paramCount > 5, paramCount > 3, 10, 5)
  }

  // ---------------------------------------------------------------------
  // Comment ratio
  // ---------------------------------------------------------------------

  /** `realComments || method.commentsCount || 0`. */
  function Comments(m: MethodRecord, realComments: nat): (r: nat)
    ensures realComments > 0 ==> r == realComments
    ensures realComments == 0 ==> r == m.commentsCount
  {
    if realComments > 0 then realComments else m.commentsCount
  }

  /** The ratio `comments / total * 100` is compared with 20 and 35 exactly:
      `ratio < p` is `100 * comments < p * total` for a positive total; a
      total of 0 would make the ratio 0. */
  function CheckCommentRatio(m: MethodRecord, realLoc: nat, realComments: nat): (r: MetricResult)
    ensures var total, comments := Loc(m, realLoc), Comments(m, realComments);
            && r.metric == CommentRatio && r.value == Ratio(comments, total)
            && (r.status == High <==> 100 * comments < 20 * total)
            && (r.status == Medium <==> 20 * total <= 100 * comments < 35 * total)
    ensures r.status == High ==> r.penalty == 10
    ensures r.status == Medium ==> r.penalty == 5
    ensures r.status == Low ==> r.penalty == 0
  {
    var total := Loc(m, realLoc);
    var comments := Comments(m, realComments);
    var below20 := if total > 0 then 100 * comments < 20 * total else true;
    var below35 := if total > 0 then 100 * comments < 35 * total else true;
    Grade(CommentRatio, Ratio(comments, total), below20, below35, 10, 5)
  }

  /** More comments never make the grade worse. */
  lemma CommentRatioMonotone(m: MethodRecord, realLoc: nat, c1: nat, c2: nat)
    requires 0 < c1 <= c2
    ensures Rank(CheckCommentRatio(m, realLoc, c2).status) <= Rank(CheckCommentRatio(m, realLoc, c1).status)
  {
  }

  // ---------------------------------------------------------------------
  // Naming clarity
  // ---------------------------------------------------------------------

  /** The identifiers a parameter name may not be. */
  const Reserved: seq<string> := ["i", "j", "k", "x", "y", "z", "a", "b", "c"]

  predicate IsUnclear(n: string)
  {
    |n| <= 2 && n in Reserved
  }

  /** The parameter names that are reserved single letters, in order. */
  function Unclear(names: seq<string>): (r: seq<string>)
    ensures |r| <= |names|
    ensures forall n :: n in r <==> n in names && n in Reserved
  {
    if names == [] then []
    else
      var last := names[|names| - 1];
      Unclear(names[..|names| - 1]) + (if IsUnclear(last) then [last] else [])
  }

  function CheckNamingClarity(m: MethodRecord): (r: MetricResult)
    ensures var unclear := Unclear(m.params);
            && r.metric == NamingClarity
            && (r.status == High <==> |unclear| > 2)
            && (r.status == Medium <==> 0 < |unclear| <= 2)
    ensures r.value.Names? && (r.value.text == "Good" <==> Unclear(m.params) == [])
    ensures r.status == High ==> r.penalty == 10
    ensures r.status == Medium ==> r.penalty == 5
    ensures r.status == Low ==> r.penalty == 0
  {
    var unclear := Unclear(m.params);
    var joined := Join(unclear, ", ");
    assert unclear != [] ==> joined != "Good" by {
      if unclear != [] {
        assert unclear[0] in Reserved;
        assert unclear[0] != "";
        JoinHead(unclear, ", ");
      }
    }
    var value := if joined != "" then joined else "Good";
    Grade(NamingClarity, Names(value), |unclear| > 2, |unclear| > 0, 10, 5)
  }

  /** A join of reserved names starts with the first name and then a comma
      or nothing, so it is never the word "Good". */
  lemma JoinHead(parts: seq<string>, sep: string)
    requires parts != [] && |parts[0]| == 1 && sep == ", "
    ensures Join(parts, sep) != "Good"
  {
    var j := Join(parts, sep);
    if |parts| == 1 {
      assert |j| == 1;
    } else {
      assert j == parts[0] + sep + Join(parts[1..], sep);
      assert j[1] == ',';
    }
  }

  /** Only reserved single letters count: any other parameter names leave
      the grade where it is. */
  lemma ClearNamesIgnored(m: MethodRecord, extra: seq<string>)
    requires forall k :: 0 <= k < |extra| ==> extra[k] !in Reserved
    ensures CheckNamingClarity(m.(params := m.params + extra)).status == CheckNamingClarity(m).status
  {
    UnclearAppendClear(m.params, extra);
  }

  /** The unclear names of a concatenation are those of each part, in
      order: `filter` keeps the parameter order. */
  lemma {:induction false} UnclearAppend(a: seq<string>, b: seq<string>)
    ensures Unclear(a + b) == Unclear(a) + Unclear(b)
    decreases |b|
  {
    if b != [] {
      var b0 := b[..|b| - 1];
      assert (a + b)[..|a + b| - 1] == a + b0;
      assert (a + b)[|a + b| - 1] == b[|b| - 1];
      UnclearAppend(a, b0);
    } else {
      assert a + b == a;
    }
  }

  /** A single name is kept exactly when it is unclear. */
  lemma UnclearSingle(n: string)
    ensures Unclear([n]) == (if IsUnclear(n) then [n] else [])
  {
    assert [n][..0] == [];
  }

  /** Each unclear name is kept as often as it occurs, every other name
      never: the count `CheckNamingClarity` grades on counts repeats. */
  lemma {:induction false} UnclearCounts(names: seq<string>)
    ensures forall n :: Occurrences(Unclear(names), n) == (if IsUnclear(n) then Occurrences(names, n) else 0)
    decreases |names|
  {
    if names != [] {
      var init := names[..|names| - 1];
      var last := names[|names| - 1];
      UnclearCounts(init);
      forall n
        ensures Occurrences(Unclear(names), n) == (if IsUnclear(n) then Occurrences(names, n) else 0)
      {
        OccurrencesAppend(Unclear(init), if IsUnclear(last) then [last] else [], n);
        assert Occurrences([last], n) == (if last == n then 1 else 0) by {
          assert [last][..0] == [];
        }
        var none: seq<string> := [];
        assert Occurrences(none, n) == 0;
      }
    }
  }

  lemma {:induction false} UnclearAppendClear(names: seq<string>, extra: seq<string>)
    requires forall k :: 0 <= k < |extra| ==> extra[k] !in Reserved
    ensures Unclear(names + extra) == Unclear(names)
    decreases |extra|
  {
    if extra == [] {
      assert names + extra == names;
    } else {
      var e0 := extra[..|extra| - 1];
      assert (names + extra)[..|names + extra| - 1] == names + e0;
      assert (names + extra)[|names + extra| - 1] == extra[|extra| - 1];
      UnclearAppendClear(names, e0);
    }
  }

  // ---------------------------------------------------------------------
  // All six
  // ---------------------------------------------------------------------

  /** `evaluateAllMetrics(method, realStats)`: absent counts are 0; the
      error of the nesting check propagates. */
  function EvaluateAllMetrics(m: MethodRecord, loc: nat, comments: nat): (r: Result<seq<MetricResult>, string>)
    ensures r.Err? <==> DepthAsWritten(m.conditionalsTree).Err?
    ensures r.Ok? ==> |r.value| == |MetricOrder| == 6
    ensures r.Ok? ==> forall i :: 0 <= i < 6 ==> r.value[i].metric == MetricOrder[i]
    ensures r.Ok? ==> forall i :: 0 <= i < 6 ==> (r.value[i].status == Low <==> r.value[i].penalty == 0)
    ensures r.Ok? ==> forall i :: 0 <= i < 6 ==> r.value[i].penalty <= 15
  {
    match CheckNestingDepth(m)
    case Err(e) => Err(e)
    case Ok(nesting) =>
      Ok([CheckFunctionLength(m, loc),
          nesting,
          CheckComplexity(m),
          CheckParameters(m),
          CheckCommentRatio(m, loc, comments),
          CheckNamingClarity(m)])
  }

  /** Without else-if objects the six results as written are those of
      the corrected nesting check. */
  lemma EvaluateAgrees(m: MethodRecord, loc: nat, comments: nat)
    requires NoElseIf(m.conditionalsTree)
    ensures EvaluateAllMetrics(m, loc, comments) == Ok(EvaluateAllMetricsIntended(m, loc, comments))
  {
    NestingAgrees(m);
  }

  /** The six results with the corrected nesting check. */
  function EvaluateAllMetricsIntended(m: MethodRecord, loc: nat, comments: nat): (r: seq<MetricResult>)
    ensures |r| == |MetricOrder| == 6
    ensures forall i :: 0 <= i < 6 ==> r[i].metric == MetricOrder[i]
    ensures forall i :: 0 <= i < 6 ==> (r[i].status == Low <==> r[i].penalty == 0)
    ensures forall i :: 0 <= i < 6 ==> r[i].penalty <= 15
  {
    [CheckFunctionLength(m, loc),
     CheckNestingDepthIntended(m),
     CheckComplexity(m),
     CheckParameters(m),
     CheckCommentRatio(m, loc, comments),
     CheckNamingClarity(m)]
  }
}
