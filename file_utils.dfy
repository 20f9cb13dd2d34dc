// getRealLOCAndComments: the code and comment line counts of a Java
// source file, by a single pass over its trimmed lines.

module FileUtils {
  import opened Wrappers
  import opened Text

  datatype Counts = Counts(loc: nat, comments: nat)

  /** The loop's variables: the two counters and whether a block comment
      is open. */
  datatype ScanState = ScanState(loc: nat, comments: nat, inBlock: bool)

  const Start: ScanState := ScanState(0, 0, false)

  predicate Blank(line: string)
  {
    Trim(line) == ""
  }

  // One pass of the loop body over `line`, as the code is written: a line
  // ending in the block-comment closer is skipped after the block-comment
  // counting, also when no block comment was open.
  function StepAsWritten(s: ScanState, line: string): ScanState
  {
    var trimmed := Trim(line);
    if trimmed == "" then s
    else
      var inBlock := s.inBlock || StartsWith(trimmed, "/*");
      var comments := if inBlock then s.comments + 1 else s.comments;
      if EndsWith(trimmed, "*/") then ScanState(s.loc, comments, false)
      else if !inBlock && StartsWith(trimmed, "//") then ScanState(s.loc, comments + 1, inBlock)
      else if !inBlock then ScanState(s.loc + 1, comments, inBlock)
      else ScanState(s.loc, comments, inBlock)
  }

  // One pass of the loop body, with the block-comment closer ending only
  // an open block comment: a line outside any block comment is a comment
  // line when it starts with two slashes and a code line otherwise.
  function Step(s: ScanState, line: string): ScanState
  {
    var trimmed := Trim(line);
    if trimmed == "" then s
    else
      var inBlock := s.inBlock || StartsWith(trimmed, "/*");
      var comments := if inBlock then s.comments + 1 else s.comments;
      if inBlock && EndsWith(trimmed, "*/") then ScanState(s.loc, comments, false)
      else if !inBlock && StartsWith(trimmed, "//") then ScanState(s.loc, comments + 1, inBlock)
      else if !inBlock then ScanState(s.loc + 1, comments, inBlock)
      else ScanState(s.loc, comments, inBlock)
  }

  function ScanAsWritten(lines: seq<string>): ScanState
  {
    if lines == [] then Start else StepAsWritten(ScanAsWritten(lines[..|lines| - 1]), lines[|lines| - 1])
  }

  function Scan(lines: seq<string>): ScanState
  {
    if lines == [] then Start else Step(Scan(lines[..|lines| - 1]), lines[|lines| - 1])
  }

  /** The number of lines that are not blank. */
  function NonBlank(lines: seq<string>): nat
  {
    if lines == [] then 0 else NonBlank(lines[..|lines| - 1]) + (if Blank(lines[|lines| - 1]) then 0 else 1)
  }

  /** `getRealLOCAndComments` on the file's content, `None` when the file
      does not exist, with the loop body as written. Splitting at `\n`
      rather than at `\r?\n` leaves a `\r` at the end of a line, which
      trimming removes. */
  function LocAndComments(content: Option<string>): (r: Counts)
    ensures content.None? ==> r == Counts(0, 0)
    ensures content.Some? ==> r.loc + r.comments <= NonBlank(Split(content.value, '\n'))
  {
    match content
    case None => Counts(0, 0)
    case Some(text) =>
      var lines := Split(text, '\n');
      AtMostOnceAsWritten(lines);
      var s := ScanAsWritten(lines);
      Counts(s.loc, s.comments)
  }

  /** The same counts with the corrected loop body. */
  function LocAndCommentsIntended(content: Option<string>): (r: Counts)
    ensures content.None? ==> r == Counts(0, 0)
    ensures content.Some? ==> r.loc + r.comments == NonBlank(Split(content.value, '\n'))
  {
    match content
    case None => Counts(0, 0)
    case Some(text) =>
      var lines := Split(text, '\n');
      EveryLineOnce(lines);
      var s := Scan(lines);
      Counts(s.loc, s.comments)
  }

  /** The line the code as written drops: outside a block comment, not
      opening one, and ending in the block-comment closer. */
  predicate Dropped(s: ScanState, line: string)
  {
    var trimmed := Trim(line);
    trimmed != "" && !s.inBlock && !StartsWith(trimmed, "/*") && EndsWith(trimmed, "*/")
  }

  /** The code as written and the corrected step differ exactly on the
      dropped lines. */
  lemma StepAgreesIff(s: ScanState, line: string)
    ensures StepAsWritten(s, line) == Step(s, line) <==> !Dropped(s, line)
  {
  }

  // ---------------------------------------------------------------------
  // The loop
  // ---------------------------------------------------------------------

  /** The counting loop of `getRealLOCAndComments`, as written. */
  method CountLines(lines: seq<string>) returns (r: Counts)
    ensures r.loc + r.comments <= NonBlank(lines)
    ensures r == Counts(ScanAsWritten(lines).loc, ScanAsWritten(lines).comments)
  {
    var loc, comments, inBlock := 0, 0, false;
    for i := 0 to |lines|
      invariant ScanAsWritten(lines[..i]) == ScanState(loc, comments, inBlock)
    {
      assert lines[..i + 1][..i] == lines[..i];
      var trimmed := Trim(lines[i]);
      if trimmed == "" {
        continue;
      }
      if StartsWith(trimmed, "/*") {
        inBlock := true;
      }
      if inBlock {
        comments := comments + 1;
      }
      if EndsWith(trimmed, "*/") {
        inBlock := false;
        continue;
      }
      if !inBlock && StartsWith(trimmed, "//") {
        comments := comments + 1;
        continue;
      }
      if !inBlock && !StartsWith(trimmed, "//") {
        loc := loc + 1;
      }
    }
    assert lines[..|lines|] == lines;
    AtMostOnceAsWritten(lines);
    r := Counts(loc, comments);
  }

  /** `getRealLOCAndComments(fileName)`, with the file's content (or its
      absence) handed in. */
  method GetRealLocAndComments(content: Option<string>) returns (r: Counts)
    ensures r == LocAndComments(content)
  {
    if content.None? {
      return Counts(0, 0);
    }
    var lines := Split(content.value, '\n');
    r := CountLines(lines);
  }

  // ---------------------------------------------------------------------
  // What the counts mean
  // ---------------------------------------------------------------------

  /** Every line that is not blank is counted exactly once, as code or as
      a comment. */
  lemma {:induction false} EveryLineOnce(lines: seq<string>)
    ensures Scan(lines).loc + Scan(lines).comments == NonBlank(lines)
    decreases |lines|
  {
    if lines != [] {
      EveryLineOnce(lines[..|lines| - 1]);
    }
  }

  /** As written, a line is counted at most once. */
  lemma {:induction false} AtMostOnceAsWritten(lines: seq<string>)
    ensures ScanAsWritten(lines).loc + ScanAsWritten(lines).comments <= NonBlank(lines)
    decreases |lines|
  {
    if lines != [] {
      AtMostOnceAsWritten(lines[..|lines| - 1]);
    }
  }

  // As written, the code line `x = 1; /* note */` is counted neither as
  // code nor as a comment; with the corrected step it is one code line.
  lemma TrailingCommentLost()
    ensures ScanAsWritten(["x = 1; /* note */"]) == ScanState(0, 0, false)
    ensures Scan(["x = 1; /* note */"]) == ScanState(1, 0, false)
  {
    var line := "x = 1; /* note */";
    assert ["x = 1; /* note */"][..0] == [];
    assert Trim(line) == line by {
      assert TrimStart(line) == line;
      assert TrimEnd(line) == line;
    }
    assert !StartsWith(line, "/*") && !StartsWith(line, "//");
    assert EndsWith(line, "*/") by {
      assert line[|line| - 2..] == "*/";
    }
  }

  /** Blank lines change nothing, in the scan as written and in the
      corrected one. */
  lemma BlankIgnored(lines: seq<string>, line: string)
    requires Blank(line)
    ensures ScanAsWritten(lines + [line]) == ScanAsWritten(lines)
    ensures Scan(lines + [line]) == Scan(lines)
  {
    assert (lines + [line])[..|lines|] == lines;
  }

  /** The two scans always agree on whether a block comment is open: the
      lines they treat differently leave it closed in both. */
  lemma {:induction false} InBlockAgrees(lines: seq<string>)
    ensures ScanAsWritten(lines).inBlock == Scan(lines).inBlock
  {
    if lines != [] {
      InBlockAgrees(lines[..|lines| - 1]);
    }
  }

  /** As written, outside a block comment, a line comment counts as one
      comment line and nothing else, unless it ends in the block-comment
      closer, in which case it counts as nothing. */
  lemma LineCommentAsWritten(lines: seq<string>, line: string)
    requires !ScanAsWritten(lines).inBlock
    requires StartsWith(Trim(line), "//")
    ensures ScanAsWritten(lines + [line])
            == if EndsWith(Trim(line), "*/") then ScanAsWritten(lines)
               else ScanAsWritten(lines).(comments := ScanAsWritten(lines).comments + 1)
  {
    assert (lines + [line])[..|lines|] == lines;
    assert !StartsWith(Trim(line), "/*") by {
      assert Trim(line)[1] == '/';
    }
  }

  /** With the corrected scan, outside a block comment, a line comment
      counts as one comment line and nothing else. */
  lemma LineComment(lines: seq<string>, line: string)
    requires !Scan(lines).inBlock
    requires StartsWith(Trim(line), "//")
    ensures Scan(lines + [line]) == Scan(lines).(comments := Scan(lines).comments + 1)
  {
    assert (lines + [line])[..|lines|] == lines;
    assert !StartsWith(Trim(line), "/*") by {
      assert Trim(line)[1] == '/';
    }
  }

  // From a line opening a block comment through the line that closes it,
  // every line that is not blank counts as one comment line, in the scan as
  // written and in the corrected one alike.
  lemma BlockComment(lines: seq<string>, line: string)
    requires !Blank(line)
    requires Scan(lines).inBlock || StartsWith(Trim(line), "/*")
    ensures ScanAsWritten(lines + [line]).loc == ScanAsWritten(lines).loc
    ensures ScanAsWritten(lines + [line]).comments == ScanAsWritten(lines).comments + 1
    ensures ScanAsWritten(lines + [line]).inBlock <==> !EndsWith(Trim(line), "*/")
    ensures Scan(lines + [line]).loc == Scan(lines).loc
    ensures Scan(lines + [line]).comments == Scan(lines).comments + 1
    ensures Scan(lines + [line]).inBlock <==> !EndsWith(Trim(line), "*/")
  {
    assert (lines + [line])[..|lines|] == lines;
    InBlockAgrees(lines);
  }
}
