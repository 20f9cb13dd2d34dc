/** The Java compliance agent: naming checks over the top-level functions,
    classes, methods and fields of a parsed compilation unit, and
    formatting, commented-out-code, import and package checks over the
    lines of its source text, with a summary of what was found. */
module ComplianceAgent {
  import opened Wrappers
  import opened Text
  import opened Regex
  import opened Seqs
  import opened ComplianceRules

  // ---------------------------------------------------------------------
  // Issues and suggestions
  // ---------------------------------------------------------------------

  datatype Severity = Low | Medium | High

  /** The four values of an issue's `type`: "Naming Issue",
      "Formatting Issue", "Dead Code" and "Import Issue". */
  datatype IssueType = NamingIssue | FormattingIssue | DeadCode | ImportIssue

  /** One issue; `name` is absent for the line checks. */
  datatype Issue = Issue(line: nat, issueType: IssueType, name: Option<string>, message: string, severity: Severity)

  /** What a suggestion advises, with the name or line number its text is
      built from. */
  datatype Advice =
    | ToCamelCase(name: string)
    | ToPascalCase(name: string)
    | GetterName(property: string)
    | SetterName(property: string)
    | BooleanGetterName(name: string)
    | ToUpperSnakeCase(name: string)
    | RemoveTrailingSpaces(lineNumber: nat)
    | ReplaceTabs(lineNumber: nat)
    | SplitLongLine(lineNumber: nat)
    | RemoveDeadCode(lineNumber: nat)
    | RemoveUnusedImport(importName: string)
    | PackageNaming(packageName: string)

  datatype Suggestion = Suggestion(line: nat, advice: Advice)

  /** The issues and suggestions pushed so far, in order. */
  datatype Findings = Findings(issues: seq<Issue>, suggestions: seq<Suggestion>)

  const NoFindings: Findings := Findings([], [])

  function Plus(a: Findings, b: Findings): Findings
  {
    Findings(a.issues + b.issues, a.suggestions + b.suggestions)
  }

  /** One issue, with a suggestion on the same line when there is advice. */
  function Found(issue: Issue, advice: Option<Advice>): Findings
  {
    Findings([issue], if advice.Some? then [Suggestion(issue.line, advice.value)] else [])
  }

  /** Every suggestion comes with an issue of its own. */
  predicate Paired(f: Findings)
  {
    |f.suggestions| <= |f.issues|
  }

  /** Every issue is a naming issue. */
  predicate AllNaming(f: Findings)
  {
    forall i :: 0 <= i < |f.issues| ==> f.issues[i].issueType == NamingIssue
  }

  /** No issue is an import issue. */
  predicate NoImportIssue(f: Findings)
  {
    CountType(f.issues, ImportIssue) == 0
  }

  // ---------------------------------------------------------------------
  // The parsed compilation unit
  // ---------------------------------------------------------------------

  /** A function, method, field or class header: its name and the line
      properties a parser may set (`line`, `startLine`, `position.line`). */
  datatype AstNode = AstNode(name: Option<string>, line: Option<nat>, startLine: Option<nat>, positionLine: Option<nat>)

  datatype AstClass = AstClass(node: AstNode, methods: Option<seq<AstNode>>, fields: Option<seq<AstNode>>)

  datatype JavaAst = JavaAst(functions: Option<seq<AstNode>>, classes: Option<seq<AstClass>>)

  /** The name, with a missing one read as the empty string: both are
      skipped by the checks. */
  function NameOf(node: AstNode): string
  {
    node.name.GetOr("")
  }

  /** `getNodeLine`: the first line property that is present, else 0. */
  function GetNodeLine(node: AstNode): (r: nat)
    ensures node.line.Some? ==> r == node.line.value
    ensures node.line.None? && node.startLine.Some? ==> r == node.startLine.value
    ensures node.line.None? && node.startLine.None? ==> r == node.positionLine.GetOr(0)
  {
    if node.line.Some? then node.line.value
    else if node.startLine.Some? then node.startLine.value
    else node.positionLine.GetOr(0)
  }

  // ---------------------------------------------------------------------
  // Lines
  // ---------------------------------------------------------------------

  /** `code.split(/\r?\n/)`: the parts between line feeds, each with a
      carriage return just before its line feed removed. */
  function Lines(code: string): (r: seq<string>)
    ensures |r| >= 1
    ensures forall k :: 0 <= k < |r| ==> '\n' !in r[k]
  {
    var parts := Split(code, '\n');
    seq(|parts|, k requires 0 <= k < |parts| =>
      if k < |parts| - 1 && EndsWith(parts[k], "\r") then parts[k][..|parts[k]| - 1] else parts[k])
  }

  /** Every line is a piece of the code. */
  lemma LinesInCode(code: string, k: nat)
    requires k < |Lines(code)|
    ensures Contains(code, Lines(code)[k])
  {
    var parts := Split(code, '\n');
    JoinSplit(code, '\n');
    JoinContainsPart(parts, "\n", k);
    PrefixContained(parts[k], |Lines(code)[k]|);
    assert Lines(code)[k] == parts[k][..|Lines(code)[k]|];
    ContainsTrans(code, parts[k], Lines(code)[k]);
  }

  /** A `\b` position: a word character on exactly one side of `p`. */
  predicate Boundary(s: string, p: nat)
    requires p <= |s|
  {
    (p > 0 && IsWordChar(s[p - 1])) != (p < |s| && IsWordChar(s[p]))
  }

  /** `w` occurs at `i` as a whole word, as `\bw\b` matches there. */
  predicate WordAt(s: string, w: string, i: nat)
  {
    IsAt(s, w, i) && Boundary(s, i) && Boundary(s, i + |w|)
  }

  predicate HasWord(s: string, w: string)
  {
    exists i: nat | i <= |s| :: WordAt(s, w, i)
  }

  /** The 1-based number of the first line from index `i` on that holds
      `name` as a whole word, or 0 when none does. */
  function FirstLineFrom(lines: seq<string>, name: string, i: nat): (r: nat)
    requires i <= |lines|
    ensures r == 0 || i < r <= |lines|
    ensures r > 0 ==> HasWord(lines[r - 1], name)
    ensures forall k :: i <= k < |lines| && (r == 0 || k < r - 1) ==> !HasWord(lines[k], name)
    decreases |lines| - i
  {
    if i == |lines| then 0
    else if HasWord(lines[i], name) then i + 1
    else FirstLineFrom(lines, name, i + 1)
  }

  /** `findLineByName(codeLines, name)`. */
  method FindLineByName(codeLines: seq<string>, name: string) returns (r: nat)
    ensures r == FirstLineFrom(codeLines, name, 0)
  {
    for i := 0 to |codeLines|
      invariant FirstLineFrom(codeLines, name, 0) == FirstLineFrom(codeLines, name, i)
    {
      if HasWord(codeLines[i], name) {
        return i + 1;
      }
    }
    return 0;
  }

  /** The line reported for a node: its own, or failing that (a missing or
      zero line) the first line holding its name. */
  function LineOf(lines: seq<string>, node: AstNode): (r: nat)
    ensures GetNodeLine(node) != 0 ==> r == GetNodeLine(node)
    ensures GetNodeLine(node) == 0 ==> r <= |lines| && (r > 0 ==> HasWord(lines[r - 1], NameOf(node)))
  {
    var line := GetNodeLine(node);
    if line == 0 then FirstLineFrom(lines, NameOf(node), 0) else line
  }

  method NodeLine(lines: seq<string>, node: AstNode) returns (line: nat)
    ensures line == LineOf(lines, node)
  {
    line := GetNodeLine(node);
    if line == 0 {
      line := FindLineByName(lines, NameOf(node));
    }
  }

  // ---------------------------------------------------------------------
  // Constants and accessors
  // ---------------------------------------------------------------------

  const ConstantPrefixes: seq<string> :=
    ["MAX_", "MIN_", "DEFAULT_", "TYPE_", "FLAG_", "ERROR_", "SUCCESS_", "VERSION_", "CONFIG_",
     "THRESHOLD_", "LIMIT_", "COUNT_", "SIZE_"]

  predicate HasConstantPrefix(fieldName: string)
  {
    exists k :: 0 <= k < |ConstantPrefixes| && StartsWith(ToUpper(fieldName), ConstantPrefixes[k])
  }

  /** `isConstantField(fieldName, lineText)`: the four heuristics in order. */
  predicate IsConstantField(fieldName: string, lineText: string)
  {
    var line := ToLower(lineText);
    Test(UpperSnakePattern(), fieldName)
    || Contains(line, "static final") || Contains(line, "final static")
    || Contains(line, "public static final") || Contains(line, "private static final")
    || HasConstantPrefix(fieldName)
  }

  /** The third heuristic never decides: a line holding "public static
      final" or "private static final" already holds "static final". */
  lemma ThirdHeuristicRedundant(fieldName: string, lineText: string)
    ensures IsConstantField(fieldName, lineText)
            <==> IsUpperSnakeCase(fieldName)
                 || Contains(ToLower(lineText), "static final") || Contains(ToLower(lineText), "final static")
                 || HasConstantPrefix(fieldName)
  {
    UpperSnakeCaseIff(fieldName);
    var line := ToLower(lineText);
    if Contains(line, "public static final") {
      assert IsAt("public static final", "static final", 7);
      ContainsTrans(line, "public static final", "static final");
    }
    if Contains(line, "private static final") {
      assert IsAt("private static final", "static final", 8);
      ContainsTrans(line, "private static final", "static final");
    }
  }

  /** What `isGetterSetterMethod` decides; its three flags are never set
      together, so one value says which (if any) is set. */
  datatype AccessorKind = Getter | Setter | BooleanGetter | NotAccessor

  /** `isGetterSetterMethod(methodName)`. */
  function ClassifyAccessor(name: string): (r: AccessorKind)
    ensures r == Getter <==> StartsWith(name, "get") && |name| > 3
    ensures r == Setter <==> StartsWith(name, "set") && |name| > 3
    ensures r == BooleanGetter <==> ((StartsWith(name, "is") && |name| > 2)
                                    || (StartsWith(name, "has") && |name| > 3)
                                    || (StartsWith(name, "can") && |name| > 3))
  {
    if StartsWith(name, "get") && |name| > 3 then Getter
    else if StartsWith(name, "set") && |name| > 3 then Setter
    else if (StartsWith(name, "is") && |name| > 2)
            || (StartsWith(name, "has") && |name| > 3)
            || (StartsWith(name, "can") && |name| > 3) then BooleanGetter
    else NotAccessor
  }

  /** The length of the accessor prefix cut off before the property name. */
  function PrefixLength(name: string, kind: AccessorKind): nat
  {
    match kind
    case Getter => 3
    case Setter => 3
    case BooleanGetter => if StartsWith(name, "is") then 2 else 3
    case NotAccessor => 0
  }

  /** `mname.substring(prefix)`; past the end this is the empty string. */
  function BaseName(name: string, kind: AccessorKind): string
  {
    var p := PrefixLength(name, kind);
    if p <= |name| then name[p..] else ""
  }

  /** An accessor always has at least one character after its prefix, so
      the test of an empty base name never decides. */
  lemma AccessorBaseNonEmpty(name: string)
    requires ClassifyAccessor(name) != NotAccessor
    ensures PrefixLength(name, ClassifyAccessor(name)) < |name|
    ensures |BaseName(name, ClassifyAccessor(name))| >= 1
  {
  }

  /** `/^[A-Z]/.test(s)`. */
  predicate StartsUpper(s: string)
  {
    |s| >= 1 && IsUpper(s[0])
  }

  // ---------------------------------------------------------------------
  // The AST checks
  // ---------------------------------------------------------------------

  /** One top-level function: its name must be camelCase. */
  function FunctionCheck(lines: seq<string>, func: AstNode): (r: Findings)
    ensures Paired(r) && AllNaming(r)
  {
    var fname := NameOf(func);
    if fname == "" || Test(MethodCamelCase.pattern, fname) then NoFindings
    else Found(Issue(LineOf(lines, func), NamingIssue, Some(fname), MethodCamelCase.message, Medium),
               Some(ToCamelCase(fname)))
  }

  /** The first `n` top-level functions. */
  function FunctionsCheck(lines: seq<string>, fs: seq<AstNode>, n: nat): (r: Findings)
    requires n <= |fs|
    ensures Paired(r) && AllNaming(r)
  {
    if n == 0 then NoFindings else Plus(FunctionsCheck(lines, fs, n - 1), FunctionCheck(lines, fs[n - 1]))
  }

  /** A class name must be PascalCase. */
  function ClassNameCheck(lines: seq<string>, cls: AstNode): (r: Findings)
    ensures Paired(r) && AllNaming(r)
  {
    var className := NameOf(cls);
    if className == "" || Test(ClassPascalCase.pattern, className) then NoFindings
    else Found(Issue(LineOf(lines, cls), NamingIssue, Some(className), ClassPascalCase.message, High),
               Some(ToPascalCase(className)))
  }

  function AccessorMessage(kind: AccessorKind): string
  {
    match kind
    case Getter => "Getter method should follow getPropertyName() pattern"
    case Setter => "Setter method should follow setPropertyName() pattern"
    case _ => "Boolean getter should follow isPropertyName() or hasPropertyName() pattern"
  }

  /** One method: an accessor must have an uppercase letter after its
      prefix, any other method a camelCase name. */
  function MethodCheck(lines: seq<string>, m: AstNode): (r: Findings)
    ensures Paired(r) && AllNaming(r)
  {
    var mname := NameOf(m);
    if mname == "" then NoFindings
    else
      var line := LineOf(lines, m);
      var kind := ClassifyAccessor(mname);
      if kind != NotAccessor then
        var base := BaseName(mname, kind);
        if |base| == 0 || !StartsUpper(base) then
          var advice :=
            if kind == Getter then GetterName(ToLower(base))
            else if kind == Setter then SetterName(ToLower(base))
            else BooleanGetterName(mname);
          Found(Issue(line, NamingIssue, Some(mname), AccessorMessage(kind), Medium), Some(advice))
        else NoFindings
      else if !Test(MethodCamelCase.pattern, mname) then
        Found(Issue(line, NamingIssue, Some(mname), MethodCamelCase.message, Medium), Some(ToCamelCase(mname)))
      else NoFindings
  }

  function MethodsCheck(lines: seq<string>, ms: seq<AstNode>, n: nat): (r: Findings)
    requires n <= |ms|
    ensures Paired(r) && AllNaming(r)
  {
    if n == 0 then NoFindings else Plus(MethodsCheck(lines, ms, n - 1), MethodCheck(lines, ms[n - 1]))
  }

  /** Reading `lines[line - 1]` past the last line gives `undefined`, and
      `isConstantField` then fails calling `toLowerCase` on it. */
  const UndefinedLineText: string := "TypeError: Cannot read properties of undefined (reading 'toLowerCase')"

  /** One field: a constant must be UPPER_SNAKE_CASE, any other field
      camelCase. */
  function FieldCheck(lines: seq<string>, f: AstNode): (r: Result<Findings, string>)
    ensures r.Ok? ==> Paired(r.value) && AllNaming(r.value)
  {
    var fname := NameOf(f);
    if fname == "" then Ok(NoFindings)
    else
      var line := LineOf(lines, f);
      if line > |lines| then Err(UndefinedLineText)
      else
        var lineText := if line == 0 then "" else lines[line - 1];
        if IsConstantField(fname, lineText) then
          if Test(ConstantUpperSnakeCase.pattern, fname) then Ok(NoFindings)
          else Ok(Found(Issue(line, NamingIssue, Some(fname), ConstantUpperSnakeCase.message, Medium),
                        Some(ToUpperSnakeCase(fname))))
        else if Test(VariableCamelCase.pattern, fname) then Ok(NoFindings)
        else Ok(Found(Issue(line, NamingIssue, Some(fname), VariableCamelCase.message, Low), Some(ToCamelCase(fname))))
  }

  function FieldsCheck(lines: seq<string>, fs: seq<AstNode>, n: nat): (r: Result<Findings, string>)
    requires n <= |fs|
    ensures r.Ok? ==> Paired(r.value) && AllNaming(r.value)
  {
    if n == 0 then Ok(NoFindings)
    else match FieldsCheck(lines, fs, n - 1)
      case Err(e) => Err(e)
      case Ok(a) =>
        match FieldCheck(lines, fs[n - 1])
        case Err(e) => Err(e)
        case Ok(b) => Ok(Plus(a, b))
  }

  /** The class name, then the methods, then the fields. */
  function ClassCheck(lines: seq<string>, cls: AstClass): (r: Result<Findings, string>)
    ensures r.Ok? ==> Paired(r.value) && AllNaming(r.value)
  {
    var head := Plus(ClassNameCheck(lines, cls.node),
                     if cls.methods.Some? then MethodsCheck(lines, cls.methods.value, |cls.methods.value|) else NoFindings);
    if cls.fields.None? then Ok(head)
    else match FieldsCheck(lines, cls.fields.value, |cls.fields.value|)
      case Err(e) => Err(e)
      case Ok(f) => Ok(Plus(head, f))
  }

  function ClassesCheck(lines: seq<string>, cs: seq<AstClass>, n: nat): (r: Result<Findings, string>)
    requires n <= |cs|
    ensures r.Ok? ==> Paired(r.value) && AllNaming(r.value)
  {
    if n == 0 then Ok(NoFindings)
    else match ClassesCheck(lines, cs, n - 1)
      case Err(e) => Err(e)
      case Ok(a) =>
        match ClassCheck(lines, cs[n - 1])
        case Err(e) => Err(e)
        case Ok(b) => Ok(Plus(a, b))
  }

  /** A failure in one field ends the whole analysis with that failure. */
  lemma {:induction false} FieldsErrSticks(lines: seq<string>, fs: seq<AstNode>, n: nat, m: nat)
    requires n <= m <= |fs|
    requires FieldsCheck(lines, fs, n).Err?
    ensures FieldsCheck(lines, fs, m) == FieldsCheck(lines, fs, n)
    decreases m
  {
    if n < m {
      FieldsErrSticks(lines, fs, n, m - 1);
    }
  }

  lemma {:induction false} ClassesErrSticks(lines: seq<string>, cs: seq<AstClass>, n: nat, m: nat)
    requires n <= m <= |cs|
    requires ClassesCheck(lines, cs, n).Err?
    ensures ClassesCheck(lines, cs, m) == ClassesCheck(lines, cs, n)
    decreases m
  {
    if n < m {
      ClassesErrSticks(lines, cs, n, m - 1);
    }
  }

  // ---------------------------------------------------------------------
  // Captures of `import` and `package` declarations
  // ---------------------------------------------------------------------

  /** The end of the longest run of class-`k` characters from `i`. */
  function RunEnd(k: CharClass, s: string, i: nat): (j: nat)
    requires i <= |s|
    ensures i <= j <= |s| && AllIn(k, s, i, j)
    ensures j == |s| || !InClass(k, s[j])
    decreases |s| - i
  {
    if i < |s| && InClass(k, s[i]) then RunEnd(k, s, i + 1) else i
  }

  lemma {:induction false} RunEndLongest(k: CharClass, s: string, i: nat, j: nat)
    requires i <= j <= |s| && AllIn(k, s, i, j)
    ensures j <= RunEnd(k, s, i)
    decreases |s| - i
  {
    if i < j {
      assert InClass(k, s[i]);
      RunEndLongest(k, s, i + 1, j);
    }
  }

  /** `keyword\s+([\w.]+)`; the optional `\s*;` after it changes neither
      whether it matches nor what it captures. */
  function CapturePattern(keyword: string): Rx
  {
    Cat(Str(keyword), Cat(Many(Space, 1), Many(WordOrDot, 1)))
  }

  /** The group captured by a match starting at `i`: the keyword, all the
      whitespace after it (at least one), then all the `[\w.]` characters
      after that (at least one). */
  function CaptureAt(s: string, keyword: string, i: nat): (r: Option<string>)
    requires i <= |s|
    ensures r.Some? ==> |r.value| >= 1 && Contains(s, r.value)
  {
    if !IsAt(s, keyword, i) then None
    else
      var w := RunEnd(Space, s, i + |keyword|);
      var e := RunEnd(WordOrDot, s, w);
      if w == i + |keyword| || e == w then None
      else
        assert IsAt(s, s[w..e], w);
        Some(s[w..e])
  }

  /** The capture of the leftmost match starting at `i` or later. */
  function CaptureFrom(s: string, keyword: string, i: nat): (r: Option<string>)
    requires i <= |s|
    ensures r.Some? ==> exists j :: i <= j <= |s| && CaptureAt(s, keyword, j) == r
    ensures r.None? ==> forall j :: i <= j <= |s| ==> CaptureAt(s, keyword, j).None?
    decreases |s| - i
  {
    if CaptureAt(s, keyword, i).Some? then CaptureAt(s, keyword, i)
    else if i == |s| then None
    else CaptureFrom(s, keyword, i + 1)
  }

  /** `s.match(/keyword\s+([\w.]+)(?:\s*;)?/)`, group 1. */
  function Capture(s: string, keyword: string): (r: Option<string>)
    ensures r.Some? ==> |r.value| >= 1 && Contains(s, r.value)
  {
    CaptureFrom(s, keyword, 0)
  }

  /** A match of the pattern starts at `i` exactly when a capture is taken
      there. */
  lemma CaptureAtIff(s: string, keyword: string, i: nat)
    requires i <= |s|
    ensures CaptureAt(s, keyword, i).Some? <==> Ends(CapturePattern(keyword), s, i) != {}
  {
    if CaptureAt(s, keyword, i).Some? {
      CaptureMatches(s, keyword, i);
    }
    if Ends(CapturePattern(keyword), s, i) != {} {
      MatchCaptures(s, keyword, i);
    }
  }

  lemma CaptureMatches(s: string, keyword: string, i: nat)
    requires i <= |s| && CaptureAt(s, keyword, i).Some?
    ensures Ends(CapturePattern(keyword), s, i) != {}
  {
    var tail := Cat(Many(Space, 1), Many(WordOrDot, 1));
    var m := i + |keyword|;
    var w := RunEnd(Space, s, m);
    var e := RunEnd(WordOrDot, s, w);
    assert w in Ends(Many(Space, 1), s, m);
    assert e in Ends(Many(WordOrDot, 1), s, w);
    assert e in Ends(tail, s, m);
    assert m in Ends(Str(keyword), s, i);
    assert e in Ends(CapturePattern(keyword), s, i);
  }

  lemma MatchCaptures(s: string, keyword: string, i: nat)
    requires i <= |s| && Ends(CapturePattern(keyword), s, i) != {}
    ensures CaptureAt(s, keyword, i).Some?
  {
    var w, e := MatchRuns(s, keyword, i);
    assert !InClass(Space, s[w]) by {
      assert InClass(WordOrDot, s[w]);
    }
    RunEndStops(Space, s, i + |keyword|, w);
    RunEndLongest(WordOrDot, s, w, e);
  }

  /** A match at `i` is the keyword, a run of spaces up to `w` and a run of
      word characters or dots from `w` to `e`. */
  lemma MatchRuns(s: string, keyword: string, i: nat) returns (w: nat, e: nat)
    requires i <= |s| && Ends(CapturePattern(keyword), s, i) != {}
    ensures IsAt(s, keyword, i) && i + |keyword| < w < e <= |s|
    ensures AllIn(Space, s, i + |keyword|, w) && AllIn(WordOrDot, s, w, e)
  {
    var tail := Cat(Many(Space, 1), Many(WordOrDot, 1));
    var m := i + |keyword|;
    e :| e in Ends(CapturePattern(keyword), s, i);
    var m' :| m' in Ends(Str(keyword), s, i) && e in Ends(tail, s, m');
    assert IsAt(s, keyword, i) && m' == m;
    w :| w in Ends(Many(Space, 1), s, m) && e in Ends(Many(WordOrDot, 1), s, w);
    assert m < w < e <= |s|;
    assert AllIn(WordOrDot, s, w, e);
  }

  /** A run that ends before a character outside the class is the longest. */
  lemma {:induction false} RunEndStops(k: CharClass, s: string, i: nat, j: nat)
    requires i <= j < |s| && AllIn(k, s, i, j) && !InClass(k, s[j])
    ensures RunEnd(k, s, i) == j
    decreases j - i
  {
    if i < j {
      RunEndStops(k, s, i + 1, j);
    }
  }

  /** The capture is taken exactly when the regular expression matches. */
  lemma CaptureIff(s: string, keyword: string)
    ensures Capture(s, keyword).Some? <==> Test(CapturePattern(keyword), s)
  {
    if Capture(s, keyword).Some? {
      var j :| 0 <= j <= |s| && CaptureAt(s, keyword, j) == Capture(s, keyword);
      CaptureAtIff(s, keyword, j);
    }
    if Test(CapturePattern(keyword), s) {
      var j: nat :| j <= |s| && Ends(CapturePattern(keyword), s, j) != {};
      CaptureAtIff(s, keyword, j);
    }
  }

  /** `importName.split('.').pop() || ''`: the simple name of an import. */
  function LastSegment(name: string): (r: string)
    ensures Contains(name, r)
    ensures '.' !in r
  {
    var parts := Split(name, '.');
    JoinSplit(name, '.');
    JoinContainsPart(parts, ".", |parts| - 1);
    parts[|parts| - 1]
  }

  // ---------------------------------------------------------------------
  // The line checks
  // ---------------------------------------------------------------------

  /** One formatting rule on line number `n`. */
  function RuleCheck(rule: Rule, lineText: string, n: nat): (r: Findings)
    ensures Paired(r)
  {
    if !Test(rule.pattern, lineText) then NoFindings
    else
      var advice :=
        if rule.name == "no_trailing_spaces" then Some(RemoveTrailingSpaces(n))
        else if rule.name == "no_tabs_allowed" then Some(ReplaceTabs(n))
        else None;
      Found(Issue(n, FormattingIssue, None, rule.message, Low), advice)
  }

  /** The first `k` formatting rules, in order. */
  function RulesCheck(lineText: string, n: nat, k: nat): (r: Findings)
    requires k <= |FormattingRules|
    ensures Paired(r)
  {
    if k == 0 then NoFindings else Plus(RulesCheck(lineText, n, k - 1), RuleCheck(FormattingRules[k - 1], lineText, n))
  }

  /** The separate check of the length rule. */
  function LongLineCheck(lineText: string, n: nat): (r: Findings)
    ensures Paired(r)
  {
    if Test(LineLengthLimit.pattern, lineText)
    then Found(Issue(n, FormattingIssue, None, LineLengthLimit.message, Low), Some(SplitLongLine(n)))
    else NoFindings
  }

  const DeadCodeMessage: string := "Commented-out code detected."

  function DeadCodeCheck(lineText: string, n: nat): (r: Findings)
    ensures Paired(r)
  {
    if Test(DeadCodePattern(), lineText)
    then Found(Issue(n, DeadCode, None, DeadCodeMessage, Low), Some(RemoveDeadCode(n)))
    else NoFindings
  }

  /** The import check as written: the import's simple name is looked for
      in the whole code, import line included. */
  function ImportCheckAsWritten(code: string, lineText: string, n: nat): (r: Findings)
    ensures Paired(r)
  {
    if !StartsWith(Trim(lineText), "import ") then NoFindings
    else match Capture(lineText, "import")
      case None => NoFindings
      case Some(importName) =>
        if Contains(code, LastSegment(importName)) then NoFindings
        else Found(Issue(n, ImportIssue, None, "Unused import: " + importName, Low), Some(RemoveUnusedImport(importName)))
  }

  /** The simple name occurs on some line other than line index `k`. */
  predicate UsedElsewhere(lines: seq<string>, k: nat, simpleName: string)
  {
    exists j :: 0 <= j < |lines| && j != k && Contains(lines[j], simpleName)
  }

  /** The import check on line index `k`, with the simple name looked for
      on the other lines only. */
  function ImportCheck(lines: seq<string>, k: nat): (r: Findings)
    requires k < |lines|
    ensures Paired(r)
  {
    var lineText := lines[k];
    if !StartsWith(Trim(lineText), "import ") then NoFindings
    else match Capture(lineText, "import")
      case None => NoFindings
      case Some(importName) =>
        if UsedElsewhere(lines, k, LastSegment(importName)) then NoFindings
        else Found(Issue(k + 1, ImportIssue, None, "Unused import: " + importName, Low), Some(RemoveUnusedImport(importName)))
  }

  const PackageMessage: string := "Package name should be lowercase"

  function PackageCheck(lineText: string, n: nat): (r: Findings)
    ensures Paired(r)
  {
    if !StartsWith(Trim(lineText), "package ") then NoFindings
    else match Capture(lineText, "package")
      case None => NoFindings
      case Some(packageName) =>
        if packageName == ToLower(packageName) then NoFindings
        else Found(Issue(n, NamingIssue, None, PackageMessage, Medium), Some(PackageNaming(packageName)))
  }

  /** Everything checked on line index `k` (line number `k + 1`) of the
      lines of `code`, with the import check as written. */
  function LineCheck(code: string, lines: seq<string>, k: nat): (r: Findings)
    requires k < |lines|
    ensures Paired(r)
  {
    var lineText, n := lines[k], k + 1;
    Plus(Plus(Plus(Plus(RulesCheck(lineText, n, |FormattingRules|), LongLineCheck(lineText, n)),
                   DeadCodeCheck(lineText, n)), ImportCheckAsWritten(code, lineText, n)), PackageCheck(lineText, n))
  }

  /** The first `n` lines. */
  function LinesCheck(code: string, lines: seq<string>, n: nat): (r: Findings)
    requires n <= |lines|
    ensures Paired(r)
  {
    if n == 0 then NoFindings else Plus(LinesCheck(code, lines, n - 1), LineCheck(code, lines, n - 1))
  }

  // ---------------------------------------------------------------------
  // The summary and the whole analysis
  // ---------------------------------------------------------------------

  datatype Summary = Summary(totalIssues: nat, high: nat, medium: nat, low: nat,
                             naming: nat, formatting: nat, deadCode: nat, imports: nat)

  datatype Report = Report(agent: string, issues: seq<Issue>, suggestions: seq<Suggestion>, summary: Summary)

  function CountSeverity(issues: seq<Issue>, s: Severity): nat
  {
    if issues == [] then 0
    else CountSeverity(issues[..|issues| - 1], s) + (if issues[|issues| - 1].severity == s then 1 else 0)
  }

  function CountType(issues: seq<Issue>, t: IssueType): nat
  {
    if issues == [] then 0
    else CountType(issues[..|issues| - 1], t) + (if issues[|issues| - 1].issueType == t then 1 else 0)
  }

  lemma {:induction false} SeveritiesAddUp(issues: seq<Issue>)
    ensures CountSeverity(issues, High) + CountSeverity(issues, Medium) + CountSeverity(issues, Low) == |issues|
    decreases |issues|
  {
    if issues != [] {
      SeveritiesAddUp(issues[..|issues| - 1]);
    }
  }

  lemma {:induction false} TypesAddUp(issues: seq<Issue>)
    ensures CountType(issues, NamingIssue) + CountType(issues, FormattingIssue)
            + CountType(issues, DeadCode) + CountType(issues, ImportIssue) == |issues|
    decreases |issues|
  {
    if issues != [] {
      TypesAddUp(issues[..|issues| - 1]);
    }
  }

  /** The summary: every issue falls in exactly one severity and in exactly
      one type. */
  function Summarize(issues: seq<Issue>): (r: Summary)
    ensures r.totalIssues == |issues|
    ensures r.high + r.medium + r.low == r.totalIssues
    ensures r.naming + r.formatting + r.deadCode + r.imports == r.totalIssues
  {
    SeveritiesAddUp(issues);
    TypesAddUp(issues);
    Summary(|issues|, CountSeverity(issues, High), CountSeverity(issues, Medium), CountSeverity(issues, Low),
            CountType(issues, NamingIssue), CountType(issues, FormattingIssue),
            CountType(issues, DeadCode), CountType(issues, ImportIssue))
  }

  const AgentName: string := "JavaComplianceAgent"

  /** The AST checks: the top-level functions, then the classes. */
  function AstCheck(lines: seq<string>, ast: JavaAst): (r: Result<Findings, string>)
    ensures r.Ok? ==> Paired(r.value) && AllNaming(r.value)
  {
    var f := if ast.functions.Some? then FunctionsCheck(lines, ast.functions.value, |ast.functions.value|) else NoFindings;
    if ast.classes.None? then Ok(f)
    else match ClassesCheck(lines, ast.classes.value, |ast.classes.value|)
      case Err(e) => Err(e)
      case Ok(c) => Ok(Plus(f, c))
  }

  /** What `analyze(code, ast)` returns, or the error it throws. */
  function AnalyzeOf(code: string, ast: JavaAst): (r: Result<Report, string>)
    ensures r.Ok? ==> |r.value.suggestions| <= |r.value.issues| == r.value.summary.totalIssues
  {
    var lines := Lines(code);
    match AstCheck(lines, ast)
    case Err(e) => Err(e)
    case Ok(a) =>
      var all := Plus(a, LinesCheck(code, lines, |lines|));
      Ok(Report(AgentName, all.issues, all.suggestions, Summarize(all.issues)))
  }

  // ---------------------------------------------------------------------
  // The agent's loops
  // ---------------------------------------------------------------------

  /** One top-level function. */
  method CheckFunction(lines: seq<string>, func: AstNode) returns (f: Findings)
    ensures f == FunctionCheck(lines, func)
  {
    f := NoFindings;
    var fname := NameOf(func);
    if fname != "" && !Test(MethodCamelCase.pattern, fname) {
      var line := NodeLine(lines, func);
      f := Findings([Issue(line, NamingIssue, Some(fname), MethodCamelCase.message, Medium)],
                    [Suggestion(line, ToCamelCase(fname))]);
    }
  }

  /** One method of a class. */
  method CheckMethod(lines: seq<string>, m: AstNode) returns (f: Findings)
    ensures f == MethodCheck(lines, m)
  {
    f := NoFindings;
    var mname := NameOf(m);
    if mname == "" {
      return;
    }
    var line := NodeLine(lines, m);
    var kind := ClassifyAccessor(mname);
    if kind != NotAccessor {
      var base := BaseName(mname, kind);
      if |base| == 0 || !StartsUpper(base) {
        var issues := [Issue(line, NamingIssue, Some(mname), AccessorMessage(kind), Medium)];
        if kind == Getter {
          f := Findings(issues, [Suggestion(line, GetterName(ToLower(base)))]);
        } else if kind == Setter {
          f := Findings(issues, [Suggestion(line, SetterName(ToLower(base)))]);
        } else {
          f := Findings(issues, [Suggestion(line, BooleanGetterName(mname))]);
        }
      }
    } else if !Test(MethodCamelCase.pattern, mname) {
      f := Findings([Issue(line, NamingIssue, Some(mname), MethodCamelCase.message, Medium)],
                    [Suggestion(line, ToCamelCase(mname))]);
    }
  }

  /** One field of a class. */
  method CheckField(lines: seq<string>, field: AstNode) returns (r: Result<Findings, string>)
    ensures r == FieldCheck(lines, field)
  {
    var fname := NameOf(field);
    if fname == "" {
      return Ok(NoFindings);
    }
    var line := NodeLine(lines, field);
    if line > |lines| {
      return Err(UndefinedLineText);
    }
    var lineText := if line == 0 then "" else lines[line - 1];
    r := Ok(NoFindings);
    if IsConstantField(fname, lineText) {
      if !Test(ConstantUpperSnakeCase.pattern, fname) {
        r := Ok(Findings([Issue(line, NamingIssue, Some(fname), ConstantUpperSnakeCase.message, Medium)],
                         [Suggestion(line, ToUpperSnakeCase(fname))]));
      }
    } else if !Test(VariableCamelCase.pattern, fname) {
      r := Ok(Findings([Issue(line, NamingIssue, Some(fname), VariableCamelCase.message, Low)],
                       [Suggestion(line, ToCamelCase(fname))]));
    }
  }

  /** The methods of a class, in order. */
  method CheckMethods(lines: seq<string>, ms: seq<AstNode>) returns (f: Findings)
    ensures f == MethodsCheck(lines, ms, |ms|)
  {
    var issues: seq<Issue> := [];
    var suggestions: seq<Suggestion> := [];
    for i := 0 to |ms|
      invariant Findings(issues, suggestions) == MethodsCheck(lines, ms, i)
    {
      var one := CheckMethod(lines, ms[i]);
      issues := issues + one.issues;
      suggestions := suggestions + one.suggestions;
    }
    f := Findings(issues, suggestions);
  }

  /** The fields of a class, in order, up to the first failure. */
  method CheckFields(lines: seq<string>, fs: seq<AstNode>) returns (r: Result<Findings, string>)
    ensures r == FieldsCheck(lines, fs, |fs|)
  {
    var issues: seq<Issue> := [];
    var suggestions: seq<Suggestion> := [];
    for i := 0 to |fs|
      invariant FieldsCheck(lines, fs, i) == Ok(Findings(issues, suggestions))
    {
      var one := CheckField(lines, fs[i]);
      if one.Err? {
        FieldsErrSticks(lines, fs, i + 1, |fs|);
        return Err(one.error);
      }
      issues := issues + one.value.issues;
      suggestions := suggestions + one.value.suggestions;
    }
    r := Ok(Findings(issues, suggestions));
  }

  /** The class name, method and field checks of one class. */
  method CheckClass(lines: seq<string>, cls: AstClass) returns (r: Result<Findings, string>)
    ensures r == ClassCheck(lines, cls)
  {
    var f := NoFindings;
    var className := NameOf(cls.node);
    if className != "" && !Test(ClassPascalCase.pattern, className) {
      var line := NodeLine(lines, cls.node);
      f := Findings([Issue(line, NamingIssue, Some(className), ClassPascalCase.message, High)],
                    [Suggestion(line, ToPascalCase(className))]);
    }
    var m := NoFindings;
    if cls.methods.Some? {
      m := CheckMethods(lines, cls.methods.value);
    }
    f := Plus(f, m);
    if cls.fields.None? {
      return Ok(f);
    }
    var fields := CheckFields(lines, cls.fields.value);
    if fields.Err? {
      return Err(fields.error);
    }
    r := Ok(Plus(f, fields.value));
  }

  /** The top-level functions, in order. */
  method CheckFunctions(lines: seq<string>, fs: seq<AstNode>) returns (f: Findings)
    ensures f == FunctionsCheck(lines, fs, |fs|)
  {
    var issues: seq<Issue> := [];
    var suggestions: seq<Suggestion> := [];
    for i := 0 to |fs|
      invariant Findings(issues, suggestions) == FunctionsCheck(lines, fs, i)
    {
      var one := CheckFunction(lines, fs[i]);
      issues := issues + one.issues;
      suggestions := suggestions + one.suggestions;
    }
    f := Findings(issues, suggestions);
  }

  /** The classes, in order, up to the first failure. */
  method CheckClasses(lines: seq<string>, cs: seq<AstClass>) returns (r: Result<Findings, string>)
    ensures r == ClassesCheck(lines, cs, |cs|)
  {
    var issues: seq<Issue> := [];
    var suggestions: seq<Suggestion> := [];
    for c := 0 to |cs|
      invariant ClassesCheck(lines, cs, c) == Ok(Findings(issues, suggestions))
    {
      var one := CheckClass(lines, cs[c]);
      if one.Err? {
        ClassesErrSticks(lines, cs, c + 1, |cs|);
        return Err(one.error);
      }
      issues := issues + one.value.issues;
      suggestions := suggestions + one.value.suggestions;
    }
    r := Ok(Findings(issues, suggestions));
  }

  /** The formatting rules, the length, commented-out code, import and
      package checks of line index `k`. */
  method CheckLine(code: string, lines: seq<string>, k: nat) returns (f: Findings)
    requires k < |lines|
    ensures f == LineCheck(code, lines, k)
  {
    var lineText, lineNumber := lines[k], k + 1;
    var issues: seq<Issue> := [];
    var suggestions: seq<Suggestion> := [];
    for r := 0 to |FormattingRules|
      invariant Findings(issues, suggestions) == RulesCheck(lineText, lineNumber, r)
    {
      var rule := FormattingRules[r];
      if Test(rule.pattern, lineText) {
        issues := issues + [Issue(lineNumber, FormattingIssue, None, rule.message, Low)];
        if rule.name == "no_trailing_spaces" {
          suggestions := suggestions + [Suggestion(lineNumber, RemoveTrailingSpaces(lineNumber))];
        } else if rule.name == "no_tabs_allowed" {
          suggestions := suggestions + [Suggestion(lineNumber, ReplaceTabs(lineNumber))];
        }
      }
    }
    f := Plus(Plus(Plus(Plus(Findings(issues, suggestions), LongLineCheck(lineText, lineNumber)),
                        DeadCodeCheck(lineText, lineNumber)), ImportCheckAsWritten(code, lineText, lineNumber)),
             PackageCheck(lineText, lineNumber));
  }

  /** The line checks, line by line. */
  method CheckLines(code: string, lines: seq<string>) returns (f: Findings)
    ensures f == LinesCheck(code, lines, |lines|)
  {
    var issues: seq<Issue> := [];
    var suggestions: seq<Suggestion> := [];
    for k := 0 to |lines|
      invariant Findings(issues, suggestions) == LinesCheck(code, lines, k)
    {
      var one := CheckLine(code, lines, k);
      issues := issues + one.issues;
      suggestions := suggestions + one.suggestions;
    }
    f := Findings(issues, suggestions);
  }

  /** `analyze(code, ast)`. */
  method Analyze(code: string, ast: JavaAst) returns (r: Result<Report, string>)
    ensures r == AnalyzeOf(code, ast)
  {
    var lines := Lines(code);
    var f := NoFindings;
    if ast.functions.Some? {
      f := CheckFunctions(lines, ast.functions.value);
    }
    if ast.classes.Some? {
      var c := CheckClasses(lines, ast.classes.value);
      if c.Err? {
        return Err(c.error);
      }
      f := Plus(f, c.value);
    }
    var l := CheckLines(code, lines);
    f := Plus(f, l);
    r := Ok(Report(AgentName, f.issues, f.suggestions, Summarize(f.issues)));
  }

  // ---------------------------------------------------------------------
  // What the checks report
  // ---------------------------------------------------------------------

  /** A top-level function is reported, once, exactly when its name is not
      camelCase. */
  lemma FunctionFlaggedIff(lines: seq<string>, func: AstNode)
    ensures var f := FunctionCheck(lines, func);
            (f.issues != [] <==> NameOf(func) != "" && !IsCamelCase(NameOf(func)))
            && (f.issues != [] ==>
                  f.issues == [Issue(LineOf(lines, func), NamingIssue, Some(NameOf(func)), MethodCamelCase.message, Medium)]
                  && f.suggestions == [Suggestion(LineOf(lines, func), ToCamelCase(NameOf(func)))])
  {
    CamelCaseIff(NameOf(func));
  }

  /** A class is reported, once and with severity High, exactly when its
      name is not PascalCase. */
  lemma ClassNameFlaggedIff(lines: seq<string>, cls: AstNode)
    ensures var f := ClassNameCheck(lines, cls);
            (f.issues != [] <==> NameOf(cls) != "" && !IsPascalCase(NameOf(cls)))
            && (f.issues != [] ==> f.issues == [Issue(LineOf(lines, cls), NamingIssue, Some(NameOf(cls)), ClassPascalCase.message, High)])
  {
    PascalCaseIff(NameOf(cls));
  }

  /** An accessor is reported exactly when the character after its prefix
      is not an uppercase letter, any other method exactly when its name is
      not camelCase; either way once, with severity Medium and a
      suggestion. */
  lemma MethodFlaggedIff(lines: seq<string>, m: AstNode)
    ensures var f := MethodCheck(lines, m);
            var name := NameOf(m);
            var kind := ClassifyAccessor(name);
            |f.issues| <= 1 && |f.suggestions| == |f.issues|
            && (f.issues != [] <==> name != "" && (if kind == NotAccessor then !IsCamelCase(name)
                                                   else !IsUpper(name[PrefixLength(name, kind)])))
            && (f.issues != [] ==> f.issues[0].severity == Medium && f.issues[0].line == LineOf(lines, m))
  {
    CamelCaseIff(NameOf(m));
  }

  /** An accessor's name escapes the camelCase rule: `getX_y` is not
      camelCase, yet it is not reported. */
  lemma AccessorEscapesCamelCase(lines: seq<string>)
    ensures !IsCamelCase("getX_y")
    ensures MethodCheck(lines, AstNode(Some("getX_y"), Some(1), None, None)) == NoFindings
  {
    assert "getX_y"[4] == '_';
    assert StartsWith("getX_y", "get");
  }

  /** A field is reported exactly when it is taken for a constant and its
      name is not UPPER_SNAKE_CASE, or is not taken for a constant and its
      name is not camelCase. */
  lemma FieldFlaggedIff(lines: seq<string>, f: AstNode)
    requires NameOf(f) != "" && LineOf(lines, f) <= |lines|
    ensures var name, line := NameOf(f), LineOf(lines, f);
            var lineText := if line == 0 then "" else lines[line - 1];
            FieldCheck(lines, f).Ok?
            && (FieldCheck(lines, f).value.issues != [] <==>
                  if IsConstantField(name, lineText) then !IsUpperSnakeCase(name) else !IsCamelCase(name))
  {
    UpperSnakeCaseIff(NameOf(f));
    CamelCaseIff(NameOf(f));
  }

  /** A field named in UPPER_SNAKE_CASE is never reported: the name alone
      makes it a constant, and it follows the constant rule. */
  lemma UpperSnakeFieldAccepted(lines: seq<string>, f: AstNode)
    requires LineOf(lines, f) <= |lines|
    requires IsUpperSnakeCase(NameOf(f))
    ensures FieldCheck(lines, f) == Ok(NoFindings)
  {
    UpperSnakeCaseIff(NameOf(f));
  }

  /** A field whose line lies past the last line makes the analysis fail. */
  lemma FieldPastLastLine(code: string, ast: JavaAst, c: nat, i: nat)
    requires ast.functions.None? && ast.classes.Some? && |ast.classes.value| == c + 1
    requires ClassesCheck(Lines(code), ast.classes.value, c).Ok?
    requires ClassNameCheck(Lines(code), ast.classes.value[c].node) == NoFindings
    requires ast.classes.value[c].fields == Some([AstNode(Some("x"), Some(|Lines(code)| + 1), None, None)])
    ensures AnalyzeOf(code, ast) == Err(UndefinedLineText)
  {
    var lines, fs := Lines(code), ast.classes.value[c].fields.value;
    assert FieldsCheck(lines, fs, 1) == Err(UndefinedLineText) by {
      assert FieldCheck(lines, fs[0]) == Err(UndefinedLineText);
    }
    assert ClassCheck(lines, ast.classes.value[c]) == Err(UndefinedLineText);
    assert ClassesCheck(lines, ast.classes.value, c + 1) == Err(UndefinedLineText);
    assert AstCheck(lines, ast) == Err(UndefinedLineText);
  }

  /** The formatting-rule loop: a suggestion for trailing whitespace and
      one for tabs, and an issue for each rule that fires, the length rule
      included. */
  lemma FormattingRulesMeaning(lineText: string, n: nat)
    ensures var f := RulesCheck(lineText, n, |FormattingRules|);
            f.suggestions == (if EndsInSpace(lineText) then [Suggestion(n, RemoveTrailingSpaces(n))] else [])
                             + (if HasTab(lineText) then [Suggestion(n, ReplaceTabs(n))] else [])
            && |f.issues| == (if EndsInSpace(lineText) then 1 else 0) + (if HasTab(lineText) then 1 else 0)
                             + (if Test(LongLinePattern(), lineText) then 1 else 0)
  {
    TrailingSpacesIff(lineText);
    TabIff(lineText);
    RulesInOrder(lineText, n);
  }

  /** The rule loop over the three formatting rules, unrolled. */
  lemma RulesInOrder(lineText: string, n: nat)
    ensures RulesCheck(lineText, n, |FormattingRules|)
            == Plus(Plus(Plus(NoFindings, RuleCheck(NoTrailingSpaces, lineText, n)),
                         RuleCheck(NoTabsAllowed, lineText, n)), RuleCheck(LineLengthLimit, lineText, n))
  {
    assert RulesCheck(lineText, n, 1) == Plus(NoFindings, RuleCheck(NoTrailingSpaces, lineText, n));
    assert RulesCheck(lineText, n, 2) == Plus(RulesCheck(lineText, n, 1), RuleCheck(NoTabsAllowed, lineText, n));
  }

  function LongLineIssue(n: nat): Issue
  {
    Issue(n, FormattingIssue, None, LineLengthLimit.message, Low)
  }

  /** The length rule runs twice, once in the rule loop and once on its
      own, so a long line is reported twice with the same issue. */
  lemma LongLineReportedTwice(code: string, lines: seq<string>, k: nat)
    requires k < |lines|
    ensures Occurrences(LineCheck(code, lines, k).issues, LongLineIssue(k + 1))
            == if Test(LongLinePattern(), lines[k]) then 2 else 0
  {
    var t, n := lines[k], k + 1;
    var x := LongLineIssue(n);
    var r2 := Plus(Plus(NoFindings, RuleCheck(NoTrailingSpaces, t, n)), RuleCheck(NoTabsAllowed, t, n));
    var r3 := RulesCheck(t, n, 3);
    RulesInOrder(t, n);
    assert x !in r2.issues;
    OccurrencesAppend(r2.issues, RuleCheck(LineLengthLimit, t, n).issues, x);
    var l := LongLineCheck(t, n);
    var d, i, p := DeadCodeCheck(t, n), ImportCheckAsWritten(code, t, n), PackageCheck(t, n);
    OccurrencesAppend(r3.issues, l.issues, x);
    assert x !in d.issues && x !in i.issues && x !in p.issues;
    OccurrencesAppend(r3.issues + l.issues, d.issues, x);
    OccurrencesAppend(r3.issues + l.issues + d.issues, i.issues, x);
    OccurrencesAppend(r3.issues + l.issues + d.issues + i.issues, p.issues, x);
  }

  /** An empty line is never reported. */
  lemma EmptyLineClean(code: string, lines: seq<string>, k: nat)
    requires k < |lines| && lines[k] == ""
    ensures LineCheck(code, lines, k) == NoFindings
  {
    TrailingSpacesIff("");
    TabIff("");
    LongLineIff("");
    DeadCodeIff("");
    RulesInOrder("", k + 1);
    assert Trim("") == "";
  }

  /** As written, the import check never reports: the import line is part
      of the code, so the code always holds the import's simple name. */
  lemma UnusedImportNeverReported(code: string, k: nat)
    requires k < |Lines(code)|
    ensures ImportCheckAsWritten(code, Lines(code)[k], k + 1) == NoFindings
  {
    var lineText := Lines(code)[k];
    if StartsWith(Trim(lineText), "import ") && Capture(lineText, "import").Some? {
      var name := Capture(lineText, "import").value;
      LinesInCode(code, k);
      ContainsTrans(lineText, name, LastSegment(name));
      ContainsTrans(code, lineText, LastSegment(name));
    }
  }

  /** Hence no line of the code is reported for an import. */
  lemma LineReportsNoImport(code: string, lines: seq<string>, k: nat)
    requires k < |lines| && ImportCheckAsWritten(code, lines[k], k + 1) == NoFindings
    ensures NoImportIssue(LineCheck(code, lines, k))
  {
    var t, n := lines[k], k + 1;
    var r := RulesCheck(t, n, |FormattingRules|);
    RulesReportNoImport(t, n, |FormattingRules|);
    var l, d, i, p := LongLineCheck(t, n), DeadCodeCheck(t, n), ImportCheckAsWritten(code, t, n), PackageCheck(t, n);
    PlusNoImport(r, l);
    PlusNoImport(Plus(r, l), d);
    PlusNoImport(Plus(Plus(r, l), d), i);
    PlusNoImport(Plus(Plus(Plus(r, l), d), i), p);
  }

  lemma {:induction false} RulesReportNoImport(lineText: string, n: nat, k: nat)
    requires k <= |FormattingRules|
    ensures NoImportIssue(RulesCheck(lineText, n, k))
    decreases k
  {
    if k > 0 {
      RulesReportNoImport(lineText, n, k - 1);
      PlusNoImport(RulesCheck(lineText, n, k - 1), RuleCheck(FormattingRules[k - 1], lineText, n));
    }
  }

  lemma {:induction false} LinesReportNoImport(code: string, lines: seq<string>, n: nat)
    requires n <= |lines|
    requires forall k :: 0 <= k < n ==> ImportCheckAsWritten(code, lines[k], k + 1) == NoFindings
    ensures NoImportIssue(LinesCheck(code, lines, n))
    decreases n
  {
    if n > 0 {
      LinesReportNoImport(code, lines, n - 1);
      LineReportsNoImport(code, lines, n - 1);
      PlusNoImport(LinesCheck(code, lines, n - 1), LineCheck(code, lines, n - 1));
    }
  }

  lemma PlusNoImport(a: Findings, b: Findings)
    requires NoImportIssue(a) && NoImportIssue(b)
    ensures NoImportIssue(Plus(a, b))
  {
    CountTypeAppend(a.issues, b.issues, ImportIssue);
  }

  lemma {:induction false} CountTypeAppend(a: seq<Issue>, b: seq<Issue>, t: IssueType)
    ensures CountType(a + b, t) == CountType(a, t) + CountType(b, t)
    decreases |b|
  {
    if b == [] {
      assert a + b == a;
    } else {
      var b0 := b[..|b| - 1];
      assert (a + b)[..|a + b| - 1] == a + b0;
      CountTypeAppend(a, b0, t);
    }
  }

  lemma {:induction false} NamingNotImport(issues: seq<Issue>)
    requires AllNaming(Findings(issues, []))
    ensures CountType(issues, ImportIssue) == 0
    decreases |issues|
  {
    if issues != [] {
      NamingNotImport(issues[..|issues| - 1]);
    }
  }

  /** The whole analysis as written reports no unused import: the summary's
      import count is 0 on every input. */
  lemma AnalyzeReportsNoImport(code: string, ast: JavaAst)
    ensures AnalyzeOf(code, ast).Ok? ==> AnalyzeOf(code, ast).value.summary.imports == 0
  {
    var lines := Lines(code);
    if AstCheck(lines, ast).Ok? {
      var a := AstCheck(lines, ast).value;
      NamingNotImport(a.issues);
      forall k | 0 <= k < |lines|
        ensures ImportCheckAsWritten(code, lines[k], k + 1) == NoFindings
      {
        UnusedImportNeverReported(code, k);
      }
      LinesReportNoImport(code, lines, |lines|);
      PlusNoImport(Findings(a.issues, []), LinesCheck(code, lines, |lines|));
    }
  }

  /** With the import line itself left out of the search, an import whose
      simple name occurs on no other line is reported, with its name. */
  lemma UnusedImportReported(lines: seq<string>, k: nat, importName: string)
    requires k < |lines|
    requires StartsWith(Trim(lines[k]), "import ") && Capture(lines[k], "import") == Some(importName)
    requires forall j :: 0 <= j < |lines| && j != k ==> !Contains(lines[j], LastSegment(importName))
    ensures ImportCheck(lines, k).issues == [Issue(k + 1, ImportIssue, None, "Unused import: " + importName, Low)]
    ensures ImportCheck(lines, k).suggestions == [Suggestion(k + 1, RemoveUnusedImport(importName))]
  {
  }

  /** A package is reported exactly when its captured name holds an
      uppercase letter. */
  lemma PackageFlaggedIff(lineText: string, n: nat, packageName: string)
    requires StartsWith(Trim(lineText), "package ") && Capture(lineText, "package") == Some(packageName)
    ensures PackageCheck(lineText, n).issues != [] <==> exists i :: 0 <= i < |packageName| && IsUpper(packageName[i])
  {
    ToLowerFixed(packageName);
  }
}
