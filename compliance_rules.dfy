/** The naming and formatting rule tables the compliance agent tests names
    and lines against. Each pattern is kept as the regular expression the
    table holds (a `Regex.Rx`), and each is shown to accept exactly the
    strings of a plain character-class description. */
module ComplianceRules {
  import opened Text
  import opened Regex

  datatype Rule = Rule(name: string, description: string, pattern: Rx, message: string)

  // ---------------------------------------------------------------------
  // The patterns, as written in the tables
  // ---------------------------------------------------------------------

  /** `^[a-z][a-zA-Z0-9]*$` */
  function CamelCasePattern(): Rx { Cat(Bol, Cat(One(Lower), Cat(Many(Alnum, 0), Eol))) }

  /** `^[A-Z][a-zA-Z0-9]*$` */
  function PascalCasePattern(): Rx { Cat(Bol, Cat(One(Upper), Cat(Many(Alnum, 0), Eol))) }

  /** `^[A-Z][A-Z0-9_]*$` */
  function UpperSnakePattern(): Rx { Cat(Bol, Cat(One(Upper), Cat(Many(UpperDigitUnderscore, 0), Eol))) }

  /** `\s+$` */
  function TrailingSpacesPattern(): Rx { Cat(Many(Space, 1), Eol) }

  /** `\t` */
  function TabPattern(): Rx { Str("\t") }

  /** `^.{121,}$` */
  function LongLinePattern(): Rx { Cat(Bol, Cat(Many(Dot, 121), Eol)) }

  /** Two slashes, then anything on the line up to a `;`, `{` or `}`: the
      commented-out-code pattern. */
  function DeadCodePattern(): Rx
  {
    Cat(Str("//"), Cat(Many(Dot, 0), Alt(Str(";"), Alt(Str("{"), Str("}")))))
  }

  // ---------------------------------------------------------------------
  // The tables
  // ---------------------------------------------------------------------

  const VariableCamelCase: Rule :=
    Rule("variable_camel_case", "Variables must follow camelCase naming convention.",
         CamelCasePattern(), "Variable name should be in camelCase.")
  const MethodCamelCase: Rule :=
    Rule("method_camel_case", "Methods must follow camelCase.",
         CamelCasePattern(), "Method name should be in camelCase.")
  const ClassPascalCase: Rule :=
    Rule("class_pascal_case", "Classes must follow PascalCase.",
         PascalCasePattern(), "Class name should be in PascalCase.")
  const ConstantUpperSnakeCase: Rule :=
    Rule("constant_upper_snake_case", "Constants should be in UPPER_SNAKE_CASE.",
         UpperSnakePattern(), "Constant should be in UPPER_SNAKE_CASE.")
  const StaticFinalUpperSnakeCase: Rule :=
    Rule("static_final_upper_snake_case", "Static final fields should be in UPPER_SNAKE_CASE.",
         UpperSnakePattern(), "Static final field should be in UPPER_SNAKE_CASE.")

  const NamingRules: seq<Rule> :=
    [VariableCamelCase, MethodCamelCase, ClassPascalCase, ConstantUpperSnakeCase, StaticFinalUpperSnakeCase]

  const NoTrailingSpaces: Rule :=
    Rule("no_trailing_spaces", "Line should not end with trailing spaces.",
         TrailingSpacesPattern(), "Remove trailing spaces.")
  const NoTabsAllowed: Rule :=
    Rule("no_tabs_allowed", "Code should not contain tab characters.",
         TabPattern(), "Replace tab characters with spaces.")
  const LineLengthLimit: Rule :=
    Rule("line_length_limit", "Line should not exceed 120 characters.",
         LongLinePattern(), "Line is too long (limit: 120 characters).")

  const FormattingRules: seq<Rule> := [NoTrailingSpaces, NoTabsAllowed, LineLengthLimit]

  // ---------------------------------------------------------------------
  // What the patterns accept
  // ---------------------------------------------------------------------

  /** A lowercase letter, then letters and digits only. */
  predicate IsCamelCase(s: string)
  {
    |s| >= 1 && IsLower(s[0]) && forall i :: 1 <= i < |s| ==> IsLetter(s[i]) || IsDigit(s[i])
  }

  /** An uppercase letter, then letters and digits only. */
  predicate IsPascalCase(s: string)
  {
    |s| >= 1 && IsUpper(s[0]) && forall i :: 1 <= i < |s| ==> IsLetter(s[i]) || IsDigit(s[i])
  }

  /** An uppercase letter, then uppercase letters, digits and underscores. */
  predicate IsUpperSnakeCase(s: string)
  {
    |s| >= 1 && IsUpper(s[0]) && forall i :: 1 <= i < |s| ==> IsUpper(s[i]) || IsDigit(s[i]) || s[i] == '_'
  }

  predicate EndsInSpace(s: string)
  {
    |s| >= 1 && IsSpace(s[|s| - 1])
  }

  predicate HasTab(s: string)
  {
    exists i :: 0 <= i < |s| && s[i] == '\t'
  }

  /** At least 121 characters, none of them a line terminator. */
  predicate IsOverLong(s: string)
  {
    |s| >= 121 && forall i :: 0 <= i < |s| ==> !IsLineTerminator(s[i])
  }

  predicate IsCodeChar(c: char)
  {
    c == ';' || c == '{' || c == '}'
  }

  /** Two slashes at `i`, and a `;`, `{` or `}` at `j` after them with no
      line terminator in between. */
  predicate CommentedCodeAt(s: string, i: nat, j: nat)
  {
    i + 2 <= j < |s| && s[i] == '/' && s[i + 1] == '/' && IsCodeChar(s[j])
    && forall t :: i + 2 <= t < j ==> !IsLineTerminator(s[t])
  }

  ghost predicate HasCommentedCode(s: string)
  {
    exists i: nat, j: nat :: CommentedCodeAt(s, i, j)
  }

  /** A first character of class `k1` and the rest of class `k2`, anchored
      at both ends. */
  lemma HeadTailMatch(k1: CharClass, k2: CharClass, s: string)
    ensures Test(Cat(Bol, Cat(One(k1), Cat(Many(k2, 0), Eol))), s)
            <==> |s| >= 1 && InClass(k1, s[0]) && AllIn(k2, s, 1, |s|)
  {
    var tail := Cat(Many(k2, 0), Eol);
    var body := Cat(One(k1), tail);
    var r := Cat(Bol, body);
    if |s| >= 1 && InClass(k1, s[0]) && AllIn(k2, s, 1, |s|) {
      assert |s| in Ends(Many(k2, 0), s, 1);
      assert |s| in Ends(Eol, s, |s|);
      assert |s| in Ends(tail, s, 1);
      assert 1 in Ends(One(k1), s, 0);
      assert |s| in Ends(body, s, 0);
      assert 0 in Ends(Bol, s, 0);
      assert |s| in Ends(r, s, 0);
    }
    if Test(r, s) {
      var i: nat :| i <= |s| && Ends(r, s, i) != {};
      var j :| j in Ends(r, s, i);
      var m :| m in Ends(Bol, s, i) && j in Ends(body, s, m);
      assert m == 0;
      var m2 :| m2 in Ends(One(k1), s, 0) && j in Ends(tail, s, m2);
      assert m2 == 1;
      var m3 :| m3 in Ends(Many(k2, 0), s, 1) && j in Ends(Eol, s, m3);
      assert m3 == |s|;
    }
  }

  /** The camelCase pattern (variables and methods). */
  lemma CamelCaseIff(s: string)
    ensures Test(CamelCasePattern(), s) <==> IsCamelCase(s)
  {
    HeadTailMatch(Lower, Alnum, s);
  }

  /** The PascalCase pattern (classes). */
  lemma PascalCaseIff(s: string)
    ensures Test(PascalCasePattern(), s) <==> IsPascalCase(s)
  {
    HeadTailMatch(Upper, Alnum, s);
  }

  /** The UPPER_SNAKE_CASE pattern (constants and static final fields). */
  lemma UpperSnakeCaseIff(s: string)
    ensures Test(UpperSnakePattern(), s) <==> IsUpperSnakeCase(s)
  {
    HeadTailMatch(Upper, UpperDigitUnderscore, s);
  }

  /** The trailing-space rule fires exactly on lines ending in whitespace. */
  lemma TrailingSpacesIff(s: string)
    ensures Test(TrailingSpacesPattern(), s) <==> EndsInSpace(s)
  {
    var r := TrailingSpacesPattern();
    if EndsInSpace(s) {
      var i := |s| - 1;
      assert |s| in Ends(Many(Space, 1), s, i);
      assert |s| in Ends(Eol, s, |s|);
      assert |s| in Ends(r, s, i);
    }
    if Test(r, s) {
      var i: nat :| i <= |s| && Ends(r, s, i) != {};
      var j :| j in Ends(r, s, i);
      var m :| m in Ends(Many(Space, 1), s, i) && j in Ends(Eol, s, m);
      assert m == |s| && i + 1 <= m;
      assert IsSpace(s[|s| - 1]);
    }
  }

  /** The tab rule fires exactly on lines holding a tab. */
  lemma TabIff(s: string)
    ensures Test(TabPattern(), s) <==> HasTab(s)
  {
    TestStr(s, "\t");
    if HasTab(s) {
      var i :| 0 <= i < |s| && s[i] == '\t';
      assert IsAt(s, "\t", i);
    }
    if Contains(s, "\t") {
      var i: nat :| i <= |s| && IsAt(s, "\t", i);
      assert s[i..i + 1][0] == s[i];
    }
  }

  /** The line-length rule fires exactly on lines of at least 121
      characters that hold no line terminator. */
  lemma LongLineIff(s: string)
    ensures Test(LongLinePattern(), s) <==> IsOverLong(s)
  {
    var body := Cat(Many(Dot, 121), Eol);
    var r := Cat(Bol, body);
    if IsOverLong(s) {
      assert |s| in Ends(Many(Dot, 121), s, 0);
      assert |s| in Ends(Eol, s, |s|);
      assert |s| in Ends(body, s, 0);
      assert 0 in Ends(Bol, s, 0);
      assert |s| in Ends(r, s, 0);
    }
    if Test(r, s) {
      var i: nat :| i <= |s| && Ends(r, s, i) != {};
      var j :| j in Ends(r, s, i);
      var m :| m in Ends(Bol, s, i) && j in Ends(body, s, m);
      assert m == 0;
      var m2 :| m2 in Ends(Many(Dot, 121), s, 0) && j in Ends(Eol, s, m2);
      assert m2 == |s|;
    }
  }

  /** For a line as the agent splits it (no line terminator), the
      line-length rule fires exactly at 121 characters and over. */
  lemma LongLineByLength(s: string)
    requires forall i :: 0 <= i < |s| ==> !IsLineTerminator(s[i])
    ensures Test(LongLinePattern(), s) <==> |s| >= 121
  {
    LongLineIff(s);
  }

  /** The closing alternative `(;|\{|\})` matches one code character. */
  lemma CodeCharEnds(s: string, j: nat, e: nat)
    requires j <= |s|
    ensures e in Ends(Alt(Str(";"), Alt(Str("{"), Str("}"))), s, j)
            <==> j < |s| && IsCodeChar(s[j]) && e == j + 1
  {
    var E := Ends(Alt(Str(";"), Alt(Str("{"), Str("}"))), s, j);
    var E2 := Ends(Alt(Str("{"), Str("}")), s, j);
    assert E2 == Ends(Str("{"), s, j) + Ends(Str("}"), s, j);
    assert E == Ends(Str(";"), s, j) + E2;
    if j < |s| {
      var c := s[j..j + 1];
      assert c == [s[j]];
      assert IsAt(s, ";", j) <==> s[j] == ';' by { assert c == ";" <==> c[0] == ';'; }
      assert IsAt(s, "{", j) <==> s[j] == '{' by { assert c == "{" <==> c[0] == '{'; }
      assert IsAt(s, "}", j) <==> s[j] == '}' by { assert c == "}" <==> c[0] == '}'; }
    } else {
      assert !IsAt(s, ";", j) && !IsAt(s, "{", j) && !IsAt(s, "}", j);
      assert E == {};
    }
  }

  /** The commented-out-code pattern. */
  lemma DeadCodeIff(s: string)
    ensures Test(DeadCodePattern(), s) <==> HasCommentedCode(s)
  {
    if HasCommentedCode(s) {
      var i: nat, j: nat :| CommentedCodeAt(s, i, j);
      DeadCodeFound(s, i, j);
    }
    if Test(DeadCodePattern(), s) {
      DeadCodeShown(s);
    }
  }

  lemma DeadCodeFound(s: string, i: nat, j: nat)
    requires CommentedCodeAt(s, i, j)
    ensures Test(DeadCodePattern(), s)
  {
    var close := Alt(Str(";"), Alt(Str("{"), Str("}")));
    var tail := Cat(Many(Dot, 0), close);
    assert IsAt(s, "//", i) by { assert s[i..i + 2] == [s[i], s[i + 1]]; }
    assert i + 2 in Ends(Str("//"), s, i);
    assert j in Ends(Many(Dot, 0), s, i + 2);
    CodeCharEnds(s, j, j + 1);
    assert j + 1 in Ends(tail, s, i + 2);
    assert j + 1 in Ends(DeadCodePattern(), s, i);
  }

  lemma DeadCodeShown(s: string)
    requires Test(DeadCodePattern(), s)
    ensures HasCommentedCode(s)
  {
    var close := Alt(Str(";"), Alt(Str("{"), Str("}")));
    var tail := Cat(Many(Dot, 0), close);
    var i: nat :| i <= |s| && Ends(DeadCodePattern(), s, i) != {};
    var e :| e in Ends(DeadCodePattern(), s, i);
    var m :| m in Ends(Str("//"), s, i) && e in Ends(tail, s, m);
    assert m == i + 2 && s[i..i + 2] == "//";
    assert s[i] == s[i..i + 2][0] && s[i + 1] == s[i..i + 2][1];
    var j :| j in Ends(Many(Dot, 0), s, m) && e in Ends(close, s, j);
    CodeCharEnds(s, j, e);
    assert CommentedCodeAt(s, i, j);
  }
}
