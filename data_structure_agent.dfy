/** The data-structure agent: line-scanning detectors over a Java source
    file that suggest better collections. Most detectors only look at lines
    inside a loop region: a region opens at a line whose trimmed text starts
    with `for(`, `for (`, `while(` or `while (`, and is tracked by a brace
    depth that starts at 1 and goes up by one for a line containing `{` and
    down by one for a line containing `}`; at depth 0 the region is closed. */
module DataStructureAgent {
  import opened Wrappers
  import opened Text
  import opened Regex
  import Seqs

  /** What a line-anchored suggestion reports. */
  datatype Finding =
    | ListContains          // .contains( inside a loop
    | ListGet               // .get(x) inside a loop
    | ArrayIndex            // a[i] inside a loop
    | RemoveFirst           // .remove(0)
    | ArrayShift            // .shift()
    | Increment             // x++;  inside a loop
    | AddOne                // x += 1 inside a loop
    | CollectionsSortCall   // Collections.sort( inside a loop
    | ArraysSortCall        // Arrays.sort( inside a loop
    | HashSetCopy           // new HashSet<..>(x) inside a loop
    | ArrayListCopy         // new ArrayList<..>(x) inside a loop
    | AddCall               // .add(x); inside a loop
    | IdAccess              // .id / .Id / .ID / getId() inside a loop
    | GetByName             // list.get(name)
    | IndexByName           // array[name]
    | HashMapThenKeySet     // new HashMap followed by a keySet() line
    | SortMapKeys           // Collections.sort( over map.keySet
    | TemporaryList         // new ArrayList / new LinkedList used once
    | HashSetFromList       // new HashSet(x) inside a loop
    | HashMapFromList       // new HashMap(x) inside a loop
    | StreamCollect         // .stream() ... collect inside a loop

  datatype Suggestion =
    | LineSuggestion(finding: Finding, lineNumber: nat)
    | NestedLoopSuggestion(lineNumber: nat, outerLoopStartsAt: nat)
    | NeverIndexedSuggestion(variable: string, declaredAt: nat)

  datatype Report = Report(fileName: Option<string>, suggestions: seq<Suggestion>)

  function IssueType(s: Suggestion): string
  {
    match s
    case NestedLoopSuggestion(_, _) => "NestedLoops"
    case NeverIndexedSuggestion(_, _) => "BigListNeverIndexed"
    case LineSuggestion(f, _) =>
      match f
      case ListContains => "BadLookup"
      case ListGet => "ManualSearch"
      case ArrayIndex => "ManualArraySearch"
      case RemoveFirst => "QueueMisuse"
      case ArrayShift => "QueueMisuse"
      case Increment => "ManualCounting"
      case AddOne => "ManualCounting"
      case CollectionsSortCall => "SortingInsideLoop"
      case ArraysSortCall => "SortingInsideLoop"
      case HashSetCopy => "DuplicateDataStructure"
      case ArrayListCopy => "DuplicateDataStructure"
      case AddCall => "ManualDuplicate"
      case IdAccess => "ArraySearchByKey"
      case GetByName => "ListAsDictionary"
      case IndexByName => "ListAsDictionary"
      case HashMapThenKeySet => "DictionaryOrderMisuse"
      case SortMapKeys => "DictionaryOrderMisuse"
      case TemporaryList => "BigTemporaryList"
      case HashSetFromList => "RepeatedConversion"
      case HashMapFromList => "RepeatedConversion"
      case StreamCollect => "RepeatedConversion"
  }

  function SubType(s: Suggestion): Option<string>
  {
    match s
    case LineSuggestion(HashSetFromList, _) => Some("ListToSet")
    case LineSuggestion(HashMapFromList, _) => Some("ListToMap")
    case LineSuggestion(StreamCollect, _) => Some("StreamToMap")
    case _ => None
  }

  function PatternText(s: Suggestion): string
  {
    match s
    case NestedLoopSuggestion(_, _) => "Nested loops detected"
    case NeverIndexedSuggestion(v, _) => v + " declared as List but only used in foreach"
    case LineSuggestion(f, _) =>
      match f
      case ListContains => "List.contains() used inside loop"
      case ListGet => "Manual List.get(i) search inside loop"
      case ArrayIndex => "Manual arr[i] search inside loop"
      case RemoveFirst => "Using List.remove(0) as a queue"
      case ArrayShift => "Using Array.shift() as a queue"
      case Increment => "count++ pattern inside loop"
      case AddOne => "counter += 1 inside loop"
      case CollectionsSortCall => "Collections.sort() inside loop"
      case ArraysSortCall => "Arrays.sort() inside loop"
      case HashSetCopy => "HashSet constructed from List inside loop"
      case ArrayListCopy => "ArrayList copy created inside loop"
      case AddCall => "Manual duplication via add() inside loop"
      case IdAccess => "Searching object by ID inside loop (O(n))"
      case GetByName => "List used as dictionary (list.get(key))"
      case IndexByName => "Array used as dictionary with string key"
      case HashMapThenKeySet => "Using HashMap but requiring iteration order"
      case SortMapKeys => "Sorting HashMap keys to preserve order"
      case TemporaryList => "Temporary list created and used once"
      case HashSetFromList => "new HashSet<>(list) inside loop"
      case HashMapFromList => "new HashMap<>(list) inside loop"
      case StreamCollect => "list.stream().collect(...) inside loop"
  }

  function RecommendedDataStructure(s: Suggestion): string
  {
    match s
    case NestedLoopSuggestion(_, _) => "Use HashMap/HashSet for matching instead of O(n²) nested scans."
    case NeverIndexedSuggestion(_, _) => "Use HashSet instead of List"
    case LineSuggestion(f, _) =>
      match f
      case ListContains => "HashSet (Set)"
      case ListGet => "Use HashSet or HashMap"
      case ArrayIndex => "Use Set or Map depending on logic"
      case RemoveFirst => "Use LinkedList or ArrayDeque"
      case ArrayShift => "Use deque instead"
      case Increment => "Use HashMap<Key, Count> instead"
      case AddOne => "Use HashMap or frequency table"
      case CollectionsSortCall => "Sort once before loop"
      case ArraysSortCall => "Move sorting outside loop"
      case HashSetCopy => "Convert list → set BEFORE loop"
      case ArrayListCopy => "Avoid copying list inside loop"
      case AddCall => "Avoid building duplicate collections in loop"
      case IdAccess => "HashMap<Key, Object>"
      case GetByName => "Use HashMap<Key, Value>"
      case IndexByName => "HashMap or TreeMap"
      case HashMapThenKeySet => "Use LinkedHashMap"
      case SortMapKeys => "LinkedHashMap"
      case TemporaryList => "Stream / direct processing"
      case HashSetFromList => "Move HashSet creation before loop"
      case HashMapFromList => "Move HashMap creation before loop"
      case StreamCollect => "Collect once before loop"
  }

  // ---------------------------------------------------------------------
  // Patterns
  // ---------------------------------------------------------------------

  function Ident(): Rx { Many(Word, 1) }
  function Spaces(): Rx { Many(Space, 0) }

  /** new\s+HashSet\s*\(\s*[a-zA-Z0-9_]+\s*\)  (and the HashMap variant) */
  function FromListRx(collection: string): Rx
  {
    Seq([Str("new"), Many(Space, 1), Str(collection), Spaces(), Str("("), Spaces(), Ident(), Spaces(), Str(")")])
  }

  /** \.get\s*\(\s*[a-zA-Z0-9_]+\s*\) */
  function GetCallRx(): Rx
  {
    Seq([Str(".get"), Spaces(), Str("("), Spaces(), Ident(), Spaces(), Str(")")])
  }

  /** [a-zA-Z0-9_]+\s*\[\s*[a-zA-Z0-9_]+\s*\] */
  function SubscriptRx(): Rx
  {
    Seq([Ident(), Spaces(), Str("["), Spaces(), Ident(), Spaces(), Str("]")])
  }

  /** [a-zA-Z0-9_]+\s*\+\+\s*; */
  function IncrementRx(): Rx
  {
    Seq([Ident(), Spaces(), Str("++"), Spaces(), Str(";")])
  }

  /** [a-zA-Z0-9_]+\s*\+=\s*1 */
  function AddOneRx(): Rx
  {
    Seq([Ident(), Spaces(), Str("+="), Spaces(), Str("1")])
  }

  /** new\s+HashSet\s*<.*>\s*\(\s*[a-zA-Z0-9_]+\s*\)  (and the ArrayList variant) */
  function CopyRx(collection: string): Rx
  {
    Seq([Str("new"), Many(Space, 1), Str(collection), Spaces(), Str("<"), Many(Dot, 0), Str(">"),
         Spaces(), Str("("), Spaces(), Ident(), Spaces(), Str(")")])
  }

  /** \.\s*add\s*\(\s*[a-zA-Z0-9_]+\s*\)\s*; */
  function AddCallRx(): Rx
  {
    Seq([Str("."), Spaces(), Str("add"), Spaces(), Str("("), Spaces(), Ident(), Spaces(), Str(")"), Spaces(), Str(";")])
  }

  /** \.id|\.Id|\.ID|\getId\s*\(\s*\)  (`\g` is an identity escape for `g`) */
  function IdRx(): Rx
  {
    Alt(Str(".id"), Alt(Str(".Id"), Alt(Str(".ID"), Seq([Str("getId"), Spaces(), Str("("), Spaces(), Str(")")]))))
  }

  /** [a-zA-Z0-9_]+\.get\(\s*[a-zA-Z_]+\s*\) */
  function GetByNameRx(): Rx
  {
    Seq([Ident(), Str(".get("), Spaces(), Many(LetterOrUnderscore, 1), Spaces(), Str(")")])
  }

  /** [a-zA-Z_]+\[[a-zA-Z_]+\] */
  function IndexByNameRx(): Rx
  {
    Seq([Many(LetterOrUnderscore, 1), Str("["), Many(LetterOrUnderscore, 1), Str("]")])
  }

  /** new ArrayList|new LinkedList */
  function NewListRx(): Rx
  {
    Alt(Str("new ArrayList"), Str("new LinkedList"))
  }

  // ---------------------------------------------------------------------
  // The per-line detectors
  // ---------------------------------------------------------------------

  /** The line detectors, one per `check*` method except the nested-loop and
      never-indexed ones, which have a shape of their own. */
  datatype Check =
    | BadLookups | ManualSearch | ManualCounting | SortingInsideLoop
    | DuplicateDataStructures | ArraySearchedByKey
    | RepeatedListToSet | RepeatedListToMap
    | QueueMisuse | ListUsedAsDictionary | DictionaryOrderMisuse | BigTemporaryList

  /** The detectors that only look inside loop regions. */
  predicate InLoopsOnly(c: Check)
  {
    !(c.QueueMisuse? || c.ListUsedAsDictionary? || c.DictionaryOrderMisuse? || c.BigTemporaryList?)
  }

  /** The findings that detector `c` makes on line `i`, in the order it
      pushes them, provided it looks at that line at all. */
  function Hits(c: Check, lines: seq<string>, i: nat): seq<Finding>
    requires i < |lines|
  {
    var line := Trim(lines[i]);
    match c
    case BadLookups => if Contains(line, ".contains(") then [ListContains] else []
    case ManualSearch =>
      (if Test(GetCallRx(), line) then [ListGet] else [])
      + (if Test(SubscriptRx(), line) then [ArrayIndex] else [])
    case ManualCounting =>
      (if Test(IncrementRx(), line) then [Increment] else [])
      + (if Test(AddOneRx(), line) then [AddOne] else [])
    case SortingInsideLoop =>
      (if Contains(line, "Collections.sort(") then [CollectionsSortCall] else [])
      + (if Contains(line, "Arrays.sort(") then [ArraysSortCall] else [])
    case DuplicateDataStructures =>
      (if Test(CopyRx("HashSet"), line) then [HashSetCopy] else [])
      + (if Test(CopyRx("ArrayList"), line) then [ArrayListCopy] else [])
      + (if Test(AddCallRx(), line) then [AddCall] else [])
    case ArraySearchedByKey => if Test(IdRx(), line) then [IdAccess] else []
    case RepeatedListToSet => if Test(FromListRx("HashSet"), line) then [HashSetFromList] else []
    case RepeatedListToMap =>
      (if Test(FromListRx("HashMap"), line) then [HashMapFromList] else [])
      + (if Contains(line, ".stream()") && Contains(line, "collect") then [StreamCollect] else [])
    case QueueMisuse =>
      (if Contains(line, ".remove(0)") then [RemoveFirst] else [])
      + (if Contains(line, ".shift()") then [ArrayShift] else [])
    case ListUsedAsDictionary =>
      (if Test(GetByNameRx(), line) then [GetByName] else [])
      + (if Test(IndexByNameRx(), line) then [IndexByName] else [])
    case DictionaryOrderMisuse =>
      (if Contains(line, "new HashMap") && i + 1 < |lines| && Contains(lines[i + 1], "keySet()")
       then [HashMapThenKeySet] else [])
      + (if Contains(line, "Collections.sort(") && Contains(line, "map.keySet") then [SortMapKeys] else [])
    case BigTemporaryList =>
      var next := if i + 1 < |lines| then Trim(lines[i + 1]) else "";
      if Test(NewListRx(), line)
         && (StartsWith(next, "for") || StartsWith(next, "process(") || Contains(next, "return"))
      then [TemporaryList] else []
  }

  // ---------------------------------------------------------------------
  // Loop regions
  // ---------------------------------------------------------------------

  /** A trimmed line that opens a loop region. */
  predicate IsLoopHeader(line: string)
  {
    StartsWith(line, "for(") || StartsWith(line, "for (") || StartsWith(line, "while(") || StartsWith(line, "while (")
  }

  /** The `inLoop`/`loopDepth` pair of the region detectors. */
  datatype Tracker = Tracker(inLoop: bool, depth: int)

  function BraceDelta(raw: string): int
  {
    (if Contains(raw, "{") then 1 else 0) - (if Contains(raw, "}") then 1 else 0)
  }

  /** The tracker after line `raw`. */
  function Advance(t: Tracker, raw: string): Tracker
  {
    if IsLoopHeader(Trim(raw)) then Tracker(true, 1)
    else if !t.inLoop then t
    else
      var d := t.depth + BraceDelta(raw);
      if d == 0 then Tracker(false, 0) else Tracker(true, d)
  }

  /** The tracker before line `i` (0-based). */
  function TrackerBefore(lines: seq<string>, i: nat): Tracker
    requires i <= |lines|
  {
    if i == 0 then Tracker(false, 0) else Advance(TrackerBefore(lines, i - 1), lines[i - 1])
  }

  /** Line `i` is looked at by the region detectors: it is not a header, a
      region is open before it and the line does not close it. */
  predicate Examined(lines: seq<string>, i: nat)
    requires i < |lines|
  {
    !IsLoopHeader(Trim(lines[i])) && TrackerBefore(lines, i).inLoop && Advance(TrackerBefore(lines, i), lines[i]).inLoop
  }

  function AtLine(fs: seq<Finding>, lineNumber: nat): seq<Suggestion>
  {
    seq(|fs|, k requires 0 <= k < |fs| => LineSuggestion(fs[k], lineNumber))
  }

  lemma AtLineMembers(fs: seq<Finding>, lineNumber: nat, f: Finding, n: nat)
    ensures LineSuggestion(f, n) in AtLine(fs, lineNumber) <==> n == lineNumber && f in fs
  {
    if n == lineNumber && f in fs {
      var k :| 0 <= k < |fs| && fs[k] == f;
      assert AtLine(fs, lineNumber)[k] == LineSuggestion(f, n);
    }
  }

  /** What a line loop pushes for the first `n` lines, given the findings
      `hits[i]` that line `i` shows; with `inLoopsOnly`, only the lines a
      loop region examines are reported. */
  function Emitted(lines: seq<string>, hits: seq<seq<Finding>>, inLoopsOnly: bool, n: nat): seq<Suggestion>
    requires n <= |lines| == |hits|
  {
    if n == 0 then []
    else
      Emitted(lines, hits, inLoopsOnly, n - 1)
      + (if !inLoopsOnly || Examined(lines, n - 1) then AtLine(hits[n - 1], n) else [])
  }

  /** The findings of detector `c`, line by line. */
  function HitsOf(c: Check, lines: seq<string>): (h: seq<seq<Finding>>)
    ensures |h| == |lines|
  {
    seq(|lines|, i requires 0 <= i < |lines| => Hits(c, lines, i))
  }

  /** What detector `c` pushes for the given lines. */
  function ScanSpec(c: Check, lines: seq<string>): seq<Suggestion>
  {
    Emitted(lines, HitsOf(c, lines), InLoopsOnly(c), |lines|)
  }

  /** What detector `c` returns for the loaded source: nothing for a missing
      or empty source, otherwise its scan of the source's lines. */
  function CheckSpec(c: Check, source: Option<string>): seq<Suggestion>
  {
    if source.None? || source.value == "" then [] else ScanSpec(c, Split(source.value, '\n'))
  }

  lemma EmittedStep(lines: seq<string>, hits: seq<seq<Finding>>, inLoopsOnly: bool, n: nat)
    requires n < |lines| == |hits|
    ensures !inLoopsOnly || Examined(lines, n) ==>
              Emitted(lines, hits, inLoopsOnly, n + 1) == Emitted(lines, hits, inLoopsOnly, n) + AtLine(hits[n], n + 1)
    ensures inLoopsOnly && !Examined(lines, n) ==>
              Emitted(lines, hits, inLoopsOnly, n + 1) == Emitted(lines, hits, inLoopsOnly, n)
  {
  }

  /** The line loop of a region detector. */
  method ScanLoopRegions(c: Check, lines: seq<string>) returns (found: seq<Suggestion>)
    requires InLoopsOnly(c)
    ensures found == ScanSpec(c, lines)
  {
    found := [];
    var inLoop := false;
    var loopDepth := 0;
    ghost var hits := HitsOf(c, lines);
    for i := 0 to |lines|
      invariant Tracker(inLoop, loopDepth) == TrackerBefore(lines, i)
      invariant found == Emitted(lines, hits, true, i)
    {
      var raw := lines[i];
      var line := Trim(raw);
      if IsLoopHeader(line) {
        inLoop := true;
        loopDepth := 1;
        continue;
      }
      if inLoop {
        if Contains(raw, "{") {
          loopDepth := loopDepth + 1;
        }
        if Contains(raw, "}") {
          loopDepth := loopDepth - 1;
        }
        if loopDepth == 0 {
          inLoop := false;
          continue;
        }
        var h := Hits(c, lines, i);
        EmittedStep(lines, hits, true, i);
        found := found + AtLine(h, i + 1);
      }
    }
  }

  /** The line loop of a detector that looks at every line. */
  method ScanEveryLine(c: Check, lines: seq<string>) returns (found: seq<Suggestion>)
    requires !InLoopsOnly(c)
    ensures found == ScanSpec(c, lines)
  {
    found := [];
    ghost var hits := HitsOf(c, lines);
    for i := 0 to |lines|
      invariant found == Emitted(lines, hits, false, i)
    {
      var h := Hits(c, lines, i);
      EmittedStep(lines, hits, false, i);
      found := found + AtLine(h, i + 1);
    }
  }

  /** The region tracker is well formed: an open region has depth at least
      one, a closed one depth zero. */
  lemma {:induction false} TrackerWellFormed(lines: seq<string>, i: nat)
    requires i <= |lines|
    ensures TrackerBefore(lines, i).inLoop ==> TrackerBefore(lines, i).depth >= 1
    ensures !TrackerBefore(lines, i).inLoop ==> TrackerBefore(lines, i).depth == 0
  {
    if i > 0 {
      TrackerWellFormed(lines, i - 1);
    }
  }

  /** Every suggestion of a line loop names one of the first `n` lines by
      its 1-based number, and a region loop never reports a loop header or a
      line outside a region. */
  lemma {:induction false} EmittedLineNumbers(lines: seq<string>, hits: seq<seq<Finding>>, inLoopsOnly: bool, n: nat)
    requires n <= |lines| == |hits|
    ensures forall s :: s in Emitted(lines, hits, inLoopsOnly, n) ==>
              s.LineSuggestion? && 1 <= s.lineNumber <= n
              && (inLoopsOnly ==> Examined(lines, s.lineNumber - 1) && !IsLoopHeader(Trim(lines[s.lineNumber - 1])))
  {
    if n > 0 {
      EmittedLineNumbers(lines, hits, inLoopsOnly, n - 1);
      var prev := Emitted(lines, hits, inLoopsOnly, n - 1);
      var examined := !inLoopsOnly || Examined(lines, n - 1);
      var last := if examined then AtLine(hits[n - 1], n) else [];
      assert Emitted(lines, hits, inLoopsOnly, n) == prev + last;
      forall s: Suggestion | s in prev + last
        ensures s.LineSuggestion? && 1 <= s.lineNumber <= n
                && (inLoopsOnly ==> Examined(lines, s.lineNumber - 1) && !IsLoopHeader(Trim(lines[s.lineNumber - 1])))
      {
        if s !in prev {
          var k :| 0 <= k < |last| && last[k] == s;
          assert s.LineSuggestion? && s.lineNumber == n && examined;
        }
      }
    }
  }

  /** A line loop reports finding `f` on line `i + 1` exactly when it looks
      at line `i` and the line shows `f`. */
  lemma {:induction false} EmittedExactly(lines: seq<string>, hits: seq<seq<Finding>>, inLoopsOnly: bool, n: nat, i: nat, f: Finding)
    requires i < n <= |lines| == |hits|
    ensures LineSuggestion(f, i + 1) in Emitted(lines, hits, inLoopsOnly, n)
            <==> (!inLoopsOnly || Examined(lines, i)) && f in hits[i]
  {
    var s := LineSuggestion(f, i + 1);
    var last := if !inLoopsOnly || Examined(lines, n - 1) then AtLine(hits[n - 1], n) else [];
    assert Emitted(lines, hits, inLoopsOnly, n) == Emitted(lines, hits, inLoopsOnly, n - 1) + last;
    AtLineMembers(hits[n - 1], n, f, i + 1);
    assert s in last <==> i == n - 1 && (!inLoopsOnly || Examined(lines, i)) && f in hits[i];
    if i == n - 1 {
      EmittedLineNumbers(lines, hits, inLoopsOnly, n - 1);
    } else {
      EmittedExactly(lines, hits, inLoopsOnly, n - 1, i, f);
    }
  }

  /** Detector `c` reports `f` on line `i + 1` exactly when it looks at line
      `i` (every line, or the lines inside loop regions) and `f` is among
      that line's findings. */
  lemma ScanReportsExactly(c: Check, lines: seq<string>, i: nat, f: Finding)
    requires i < |lines|
    ensures LineSuggestion(f, i + 1) in ScanSpec(c, lines)
            <==> (!InLoopsOnly(c) || Examined(lines, i)) && f in Hits(c, lines, i)
  {
    EmittedExactly(lines, HitsOf(c, lines), InLoopsOnly(c), |lines|, i, f);
  }

  /** `checkQueueMisuse` reports every line containing `.remove(0)` or
      `.shift()`, inside a loop or not. */
  lemma QueueMisuseEverywhere(lines: seq<string>, i: nat)
    requires i < |lines|
    ensures Contains(Trim(lines[i]), ".remove(0)") ==> LineSuggestion(RemoveFirst, i + 1) in ScanSpec(QueueMisuse, lines)
    ensures Contains(Trim(lines[i]), ".shift()") ==> LineSuggestion(ArrayShift, i + 1) in ScanSpec(QueueMisuse, lines)
  {
    ScanReportsExactly(QueueMisuse, lines, i, RemoveFirst);
    ScanReportsExactly(QueueMisuse, lines, i, ArrayShift);
  }

  /** `checkBadLookups` reports line `i + 1` exactly when a loop region
      examines line `i` and its trimmed text contains `.contains(`. */
  lemma BadLookupsIff(lines: seq<string>, i: nat)
    requires i < |lines|
    ensures LineSuggestion(ListContains, i + 1) in ScanSpec(BadLookups, lines)
            <==> Examined(lines, i) && Contains(Trim(lines[i]), ".contains(")
  {
    ScanReportsExactly(BadLookups, lines, i, ListContains);
  }

  /** Once a region is closed, no line is looked at until the next loop
      header. */
  lemma {:induction false} ClosedUntilHeader(lines: seq<string>, i: nat, j: nat)
    requires i <= j <= |lines|
    requires !TrackerBefore(lines, i).inLoop
    requires forall k :: i <= k < j ==> !IsLoopHeader(Trim(lines[k]))
    ensures !TrackerBefore(lines, j).inLoop
    ensures forall k :: i <= k < j ==> !Examined(lines, k)
  {
    if j > i {
      ClosedUntilHeader(lines, i, j - 1);
    }
  }

  /** A region detector reports nothing on the lines after a region closes
      and before the next loop header. */
  lemma NothingAfterRegionCloses(c: Check, lines: seq<string>, i: nat, j: nat)
    requires InLoopsOnly(c)
    requires i <= j <= |lines|
    requires !TrackerBefore(lines, i).inLoop
    requires forall k :: i <= k < j ==> !IsLoopHeader(Trim(lines[k]))
    ensures forall s :: s in ScanSpec(c, lines) ==> s.LineSuggestion? && !(i < s.lineNumber <= j)
  {
    ClosedUntilHeader(lines, i, j);
    EmittedLineNumbers(lines, HitsOf(c, lines), true, |lines|);
  }

  // ---------------------------------------------------------------------
  // Nested loops
  // ---------------------------------------------------------------------

  /** The `inOuterLoop`/`loopDepth`/`outerLoopLine` state of `checkNestedLoops`. */
  datatype NestTracker = NestTracker(inOuter: bool, depth: int, outerLine: nat)

  function NestAdvance(t: NestTracker, raw: string, i: nat): NestTracker
  {
    if IsLoopHeader(Trim(raw)) then
      (if !t.inOuter then NestTracker(true, 1, i + 1) else t)
    else if t.inOuter then
      var d := t.depth + BraceDelta(raw);
      NestTracker(d != 0, d, t.outerLine)
    else t
  }

  function NestBefore(lines: seq<string>, i: nat): NestTracker
    requires i <= |lines|
  {
    if i == 0 then NestTracker(false, 0, 0) else NestAdvance(NestBefore(lines, i - 1), lines[i - 1], i - 1)
  }

  function NestedAt(lines: seq<string>, i: nat): seq<Suggestion>
    requires i < |lines|
  {
    var t := NestBefore(lines, i);
    if IsLoopHeader(Trim(lines[i])) && t.inOuter then [NestedLoopSuggestion(i + 1, t.outerLine)] else []
  }

  function NestedSpec(lines: seq<string>, n: nat): seq<Suggestion>
    requires n <= |lines|
  {
    if n == 0 then [] else NestedSpec(lines, n - 1) + NestedAt(lines, n - 1)
  }

  method ScanNestedLoops(lines: seq<string>) returns (found: seq<Suggestion>)
    ensures found == NestedSpec(lines, |lines|)
  {
    found := [];
    var loopDepth := 0;
    var inOuterLoop := false;
    var outerLoopLine := 0;
    for i := 0 to |lines|
      invariant NestTracker(inOuterLoop, loopDepth, outerLoopLine) == NestBefore(lines, i)
      invariant found == NestedSpec(lines, i)
    {
      var raw := lines[i];
      var line := Trim(raw);
      if IsLoopHeader(line) {
        if !inOuterLoop {
          inOuterLoop := true;
          loopDepth := 1;
          outerLoopLine := i + 1;
        } else {
          found := found + [NestedLoopSuggestion(i + 1, outerLoopLine)];
        }
        continue;
      }
      if inOuterLoop {
        if Contains(raw, "{") {
          loopDepth := loopDepth + 1;
        }
        if Contains(raw, "}") {
          loopDepth := loopDepth - 1;
        }
        if loopDepth == 0 {
          inOuterLoop := false;
        }
      }
    }
  }

  /** While an outer loop is open, its recorded line is an earlier line. */
  lemma {:induction false} OuterLineEarlier(lines: seq<string>, i: nat)
    requires i <= |lines|
    ensures NestBefore(lines, i).inOuter ==> 1 <= NestBefore(lines, i).outerLine <= i
  {
    if i > 0 {
      OuterLineEarlier(lines, i - 1);
    }
  }

  /** A nested-loop suggestion is made only on a loop header while an outer
      loop is open, and the outer loop starts on an earlier line. */
  lemma {:induction false} NestedLoopsWellFormed(lines: seq<string>, n: nat)
    requires n <= |lines|
    ensures forall s :: s in NestedSpec(lines, n) ==>
              s.NestedLoopSuggestion? && 1 <= s.outerLoopStartsAt < s.lineNumber <= n
              && IsLoopHeader(Trim(lines[s.lineNumber - 1])) && NestBefore(lines, s.lineNumber - 1).inOuter
  {
    if n > 0 {
      NestedLoopsWellFormed(lines, n - 1);
      NestedAtWellFormed(lines, n - 1);
      assert NestedSpec(lines, n) == NestedSpec(lines, n - 1) + NestedAt(lines, n - 1);
    }
  }

  lemma NestedAtWellFormed(lines: seq<string>, i: nat)
    requires i < |lines|
    ensures forall s :: s in NestedAt(lines, i) ==>
              s.NestedLoopSuggestion? && 1 <= s.outerLoopStartsAt < s.lineNumber == i + 1
              && IsLoopHeader(Trim(lines[i])) && NestBefore(lines, i).inOuter
  {
    OuterLineEarlier(lines, i);
  }

  function NestedLoopsSpec(source: Option<string>): seq<Suggestion>
  {
    if source.None? || source.value == "" then []
    else
      var lines := Split(source.value, '\n');
      NestedSpec(lines, |lines|)
  }

  // ---------------------------------------------------------------------
  // Lists declared, iterated and never indexed
  // ---------------------------------------------------------------------

  /** The end of the longest run of class-`k` characters of `s` from `i`. */
  function SpanEnd(k: CharClass, s: string, i: nat): (e: nat)
    requires i <= |s|
    ensures i <= e <= |s| && AllIn(k, s, i, e)
    ensures e < |s| ==> !InClass(k, s[e])
    decreases |s| - i
  {
    if i < |s| && InClass(k, s[i]) then SpanEnd(k, s, i + 1) else i
  }

  /** The capturing patterns of `checkBigListNeverIndexed`. */
  datatype Capture =
    | Declaration  // List<.*>\s+([a-zA-Z0-9_]+)\s*=\s*new\s+
    | Foreach      // for\s*\([^:]+:\s*([a-zA-Z0-9_]+)\)
    | GetIndexed   // ([a-zA-Z0-9_]+)\.get\s*\(
    | Subscripted  // ([a-zA-Z0-9_]+)\s*\[

  /** The tail `\s+([a-zA-Z0-9_]+)\s*=\s*new\s+` of the declaration pattern
      from position `k`. Each repetition is followed by a character it cannot
      take, so the only successful choice is the longest run, and the group
      is determined. */
  function DeclarationTail(line: string, k: nat): Option<string>
    requires k <= |line|
  {
    var a := SpanEnd(Space, line, k);
    var b := SpanEnd(Word, line, a);
    var c := SpanEnd(Space, line, b);
    if a == k || b == a || c == |line| || line[c] != '=' then None
    else
      var d := SpanEnd(Space, line, c + 1);
      if IsAt(line, "new", d) && d + 3 < |line| && IsSpace(line[d + 3]) then Some(line[a..b]) else None
  }

  /** The greedy `.*` between `List<` (ending at `from`) and `>`: the `>`
      positions are tried from the rightmost, `q - 1`, leftwards. */
  function DeclarationFromGt(line: string, from: nat, q: nat): Option<string>
    requires from <= q <= |line|
    decreases q
  {
    if q == from then None
    else if line[q - 1] == '>' && DeclarationTail(line, q).Some? then DeclarationTail(line, q)
    else DeclarationFromGt(line, from, q - 1)
  }

  /** The group captured by a match of pattern `k` that starts at `p`. */
  function CaptureAt(k: Capture, line: string, p: nat): Option<string>
    requires p <= |line|
  {
    match k
    case Declaration =>
      if IsAt(line, "List<", p) then DeclarationFromGt(line, p + 5, SpanEnd(Dot, line, p + 5)) else None
    case Foreach =>
      if !IsAt(line, "for", p) then None
      else
        var a := SpanEnd(Space, line, p + 3);
        if a == |line| || line[a] != '(' then None
        else
          var b := SpanEnd(NotChar(':'), line, a + 1);
          if b == a + 1 || b == |line| then None
          else
            var c := SpanEnd(Space, line, b + 1);
            var d := SpanEnd(Word, line, c);
            if d == c || d == |line| || line[d] != ')' then None else Some(line[c..d])
    case GetIndexed =>
      var b := SpanEnd(Word, line, p);
      if b == p || !IsAt(line, ".get", b) then None
      else
        var c := SpanEnd(Space, line, b + 4);
        if c < |line| && line[c] == '(' then Some(line[p..b]) else None
    case Subscripted =>
      var b := SpanEnd(Word, line, p);
      var c := SpanEnd(Space, line, b);
      if b != p && c < |line| && line[c] == '[' then Some(line[p..b]) else None
  }

  /** `line.match(pattern)[1]` for the leftmost match at or after `p`. */
  function FirstCapture(k: Capture, line: string, p: nat): Option<string>
    requires p <= |line|
    decreases |line| - p
  {
    var here := CaptureAt(k, line, p);
    if here.Some? then here
    else if p == |line| then None
    else FirstCapture(k, line, p + 1)
  }

  function Captured(k: Capture, line: string): Option<string>
  {
    FirstCapture(k, line, 0)
  }

  /** What pattern `k` captures on each line. */
  function CapturesOf(k: Capture, lines: seq<string>): (caps: seq<Option<string>>)
    ensures |caps| == |lines|
  {
    seq(|lines|, i requires 0 <= i < |lines| => Captured(k, lines[i]))
  }

  /** The names the declaration pass records, in `Map` insertion order,
      given what the declaration pattern captures on each line. */
  function DeclaredNames(caps: seq<Option<string>>): seq<string>
  {
    if caps == [] then []
    else
      var names := DeclaredNames(caps[..|caps| - 1]);
      match caps[|caps| - 1]
      case None => names
      case Some(v) => if v in names then names else names + [v]
  }

  /** The 1-based declaration line each name maps to: a later declaration
      overwrites an earlier one. */
  function DeclaredAt(caps: seq<Option<string>>): map<string, nat>
  {
    if caps == [] then map[]
    else
      var m := DeclaredAt(caps[..|caps| - 1]);
      match caps[|caps| - 1]
      case None => m
      case Some(v) => m[v := |caps|]
  }

  /** The names captured on any line. */
  function Names(caps: seq<Option<string>>): set<string>
  {
    if caps == [] then {}
    else Names(caps[..|caps| - 1]) + (match caps[|caps| - 1] case None => {} case Some(v) => {v})
  }

  /** The suggestions for the declared names, in order, that are iterated
      and never indexed. */
  function NeverIndexed(names: seq<string>, declared: map<string, nat>, iterated: set<string>, indexed: set<string>): seq<Suggestion>
  {
    if names == [] then []
    else
      var v := names[|names| - 1];
      NeverIndexed(names[..|names| - 1], declared, iterated, indexed)
      + (if v in iterated && v !in indexed && v in declared then [NeverIndexedSuggestion(v, declared[v])] else [])
  }

  function IteratedNames(lines: seq<string>): set<string>
  {
    Names(CapturesOf(Foreach, lines))
  }

  function IndexedNames(lines: seq<string>): set<string>
  {
    Names(CapturesOf(GetIndexed, lines)) + Names(CapturesOf(Subscripted, lines))
  }

  function NeverIndexedSpec(lines: seq<string>): seq<Suggestion>
  {
    var decls := CapturesOf(Declaration, lines);
    NeverIndexed(DeclaredNames(decls), DeclaredAt(decls), IteratedNames(lines), IndexedNames(lines))
  }

  function BigListNeverIndexedSpec(source: Option<string>): seq<Suggestion>
  {
    if source.None? || source.value == "" then [] else NeverIndexedSpec(Split(source.value, '\n'))
  }

  /** Pass 1: the declarations. */
  method CollectDeclarations(lines: seq<string>) returns (order: seq<string>, listDeclared: map<string, nat>)
    ensures order == DeclaredNames(CapturesOf(Declaration, lines))
    ensures listDeclared == DeclaredAt(CapturesOf(Declaration, lines))
  {
    ghost var caps := CapturesOf(Declaration, lines);
    order := [];
    listDeclared := map[];
    for i := 0 to |lines|
      invariant order == DeclaredNames(caps[..i]) && listDeclared == DeclaredAt(caps[..i])
    {
      var m := Captured(Declaration, lines[i]);
      assert caps[..i + 1][..i] == caps[..i] && m == caps[i];
      if m.Some? {
        if m.value !in order {
          order := order + [m.value];
        }
        listDeclared := listDeclared[m.value := i + 1];
      }
    }
    assert caps[..|lines|] == caps;
  }

  /** Passes 2 and 3: the names a pattern captures on some line. */
  method CollectNames(k: Capture, lines: seq<string>) returns (names: set<string>)
    ensures names == Names(CapturesOf(k, lines))
  {
    ghost var caps := CapturesOf(k, lines);
    names := {};
    for i := 0 to |lines|
      invariant names == Names(caps[..i])
    {
      var m := Captured(k, lines[i]);
      assert caps[..i + 1][..i] == caps[..i] && m == caps[i];
      if m.Some? {
        names := names + {m.value};
      }
    }
    assert caps[..|lines|] == caps;
  }

  method ScanNeverIndexed(lines: seq<string>) returns (found: seq<Suggestion>)
    ensures found == NeverIndexedSpec(lines)
  {
    var order, listDeclared := CollectDeclarations(lines);
    var listForeachUsed := CollectNames(Foreach, lines);
    var byGet := CollectNames(GetIndexed, lines);
    var bySubscript := CollectNames(Subscripted, lines);
    var listIndexed := byGet + bySubscript;
    found := [];
    for j := 0 to |order|
      invariant found == NeverIndexed(order[..j], listDeclared, listForeachUsed, listIndexed)
    {
      var v := order[j];
      assert order[..j + 1][..j] == order[..j];
      if v in listForeachUsed && v !in listIndexed && v in listDeclared {
        found := found + [NeverIndexedSuggestion(v, listDeclared[v])];
      }
    }
    assert order[..|order|] == order;
  }

  lemma {:induction false} DeclaredNamesAreKeys(caps: seq<Option<string>>)
    ensures forall v :: v in DeclaredNames(caps) <==> v in DeclaredAt(caps)
  {
    if caps != [] {
      DeclaredNamesAreKeys(caps[..|caps| - 1]);
    }
  }

  lemma {:induction false} NeverIndexedMembers(names: seq<string>, declared: map<string, nat>, iterated: set<string>, indexed: set<string>, v: string, d: nat)
    ensures NeverIndexedSuggestion(v, d) in NeverIndexed(names, declared, iterated, indexed)
            <==> v in names && v in iterated && v !in indexed && v in declared && d == declared[v]
  {
    if names != [] {
      var init := names[..|names| - 1];
      NeverIndexedMembers(init, declared, iterated, indexed, v, d);
      assert names == init + [names[|names| - 1]];
    }
  }

  /** `checkBigListNeverIndexed` suggests a variable exactly when it is
      declared as a list, used in a foreach and never indexed, and gives the
      line its last declaration is on. */
  lemma NeverIndexedIff(lines: seq<string>, v: string, d: nat)
    ensures NeverIndexedSuggestion(v, d) in NeverIndexedSpec(lines)
            <==> v in DeclaredAt(CapturesOf(Declaration, lines)) && d == DeclaredAt(CapturesOf(Declaration, lines))[v]
                 && v in IteratedNames(lines) && v !in IndexedNames(lines)
  {
    var decls := CapturesOf(Declaration, lines);
    DeclaredNamesAreKeys(decls);
    NeverIndexedMembers(DeclaredNames(decls), DeclaredAt(decls), IteratedNames(lines), IndexedNames(lines), v, d);
  }

  /** A name is recorded iff some line declares it, and it maps to the
      1-based number of the last such line. */
  lemma {:induction false} DeclaredAtIsLastDeclaration(caps: seq<Option<string>>, v: string)
    ensures v in DeclaredAt(caps) <==> exists i :: 0 <= i < |caps| && caps[i] == Some(v)
    ensures v in DeclaredAt(caps) ==>
              var d := DeclaredAt(caps)[v];
              1 <= d <= |caps| && caps[d - 1] == Some(v)
              && forall i :: d <= i < |caps| ==> caps[i] != Some(v)
  {
    if caps != [] {
      var init := caps[..|caps| - 1];
      DeclaredAtIsLastDeclaration(init, v);
      if v in DeclaredAt(init) {
        var i :| 0 <= i < |init| && init[i] == Some(v);
        assert caps[i] == Some(v);
      }
      if v !in DeclaredAt(caps) {
        forall i | 0 <= i < |caps| ensures caps[i] != Some(v) {
          if i < |init| {
            assert caps[i] == init[i];
          }
        }
      }
    }
  }

  // ---------------------------------------------------------------------
  // The agent
  // ---------------------------------------------------------------------

  /** Everything `analyze` appends, in its fixed order. */
  function AnalyzeSpec(source: Option<string>): seq<Suggestion>
  {
    CheckSpec(BadLookups, source) + CheckSpec(ManualSearch, source) + NestedLoopsSpec(source)
    + CheckSpec(QueueMisuse, source) + CheckSpec(ManualCounting, source) + CheckSpec(SortingInsideLoop, source)
    + BigListNeverIndexedSpec(source) + CheckSpec(DuplicateDataStructures, source)
    + CheckSpec(ArraySearchedByKey, source) + CheckSpec(ListUsedAsDictionary, source)
    + CheckSpec(DictionaryOrderMisuse, source) + CheckSpec(BigTemporaryList, source)
    + CheckSpec(RepeatedListToSet, source) + CheckSpec(RepeatedListToMap, source)
  }

  /** A missing or empty source gives no suggestions at all. */
  lemma EmptySourceNoSuggestions(source: Option<string>)
    requires source.None? || source == Some("")
    ensures AnalyzeSpec(source) == []
  {
  }

  class Agent {
    var sourceCode: Option<string>
    var suggestions: seq<Suggestion>

    constructor ()
      ensures sourceCode == None && suggestions == []
    {
      sourceCode := None;
      suggestions := [];
    }

    /** Loads a file and clears the suggestions of the previous one. The AST
        passed beside the source is not used by any detector. */
    method LoadInput(source: string)
      modifies this
      ensures sourceCode == Some(source) && suggestions == []
    {
      sourceCode := Some(source);
      suggestions := [];
    }

    method RunCheck(c: Check) returns (found: seq<Suggestion>)
      ensures found == CheckSpec(c, sourceCode)
    {
      if sourceCode.None? || sourceCode.value == "" {
        return [];
      }
      var lines := Split(sourceCode.value, '\n');
      if InLoopsOnly(c) {
        found := ScanLoopRegions(c, lines);
      } else {
        found := ScanEveryLine(c, lines);
      }
    }

    method CheckBadLookups() returns (found: seq<Suggestion>)
      ensures found == CheckSpec(BadLookups, sourceCode)
    {
      found := RunCheck(BadLookups);
    }

    method CheckManualSearch() returns (found: seq<Suggestion>)
      ensures found == CheckSpec(ManualSearch, sourceCode)
    {
      found := RunCheck(ManualSearch);
    }

    method CheckNestedLoops() returns (found: seq<Suggestion>)
      ensures found == NestedLoopsSpec(sourceCode)
      ensures forall s :: s in found ==> s.NestedLoopSuggestion? && s.outerLoopStartsAt < s.lineNumber
    {
      if sourceCode.None? || sourceCode.value == "" {
        return [];
      }
      var lines := Split(sourceCode.value, '\n');
      found := ScanNestedLoops(lines);
      NestedLoopsWellFormed(lines, |lines|);
    }

    method CheckQueueMisuse() returns (found: seq<Suggestion>)
      ensures found == CheckSpec(QueueMisuse, sourceCode)
    {
      found := RunCheck(QueueMisuse);
    }

    method CheckManualCounting() returns (found: seq<Suggestion>)
      ensures found == CheckSpec(ManualCounting, sourceCode)
    {
      found := RunCheck(ManualCounting);
    }

    method CheckSortingInsideLoop() returns (found: seq<Suggestion>)
      ensures found == CheckSpec(SortingInsideLoop, sourceCode)
    {
      found := RunCheck(SortingInsideLoop);
    }

    method CheckBigListNeverIndexed() returns (found: seq<Suggestion>)
      ensures found == BigListNeverIndexedSpec(sourceCode)
    {
      if sourceCode.None? || sourceCode.value == "" {
        return [];
      }
      found := ScanNeverIndexed(Split(sourceCode.value, '\n'));
    }

    method CheckDuplicateDataStructures() returns (found: seq<Suggestion>)
      ensures found == CheckSpec(DuplicateDataStructures, sourceCode)
    {
      found := RunCheck(DuplicateDataStructures);
    }

    method CheckArraySearchedByKey() returns (found: seq<Suggestion>)
      ensures found == CheckSpec(ArraySearchedByKey, sourceCode)
    {
      found := RunCheck(ArraySearchedByKey);
    }

    method CheckListUsedAsDictionary() returns (found: seq<Suggestion>)
      ensures found == CheckSpec(ListUsedAsDictionary, sourceCode)
    {
      found := RunCheck(ListUsedAsDictionary);
    }

    method CheckDictionaryOrderMisuse() returns (found: seq<Suggestion>)
      ensures found == CheckSpec(DictionaryOrderMisuse, sourceCode)
    {
      found := RunCheck(DictionaryOrderMisuse);
    }

    method CheckBigTemporaryList() returns (found: seq<Suggestion>)
      ensures found == CheckSpec(BigTemporaryList, sourceCode)
    {
      found := RunCheck(BigTemporaryList);
    }

    method CheckRepeatedListToSetConversion() returns (found: seq<Suggestion>)
      ensures found == CheckSpec(RepeatedListToSet, sourceCode)
    {
      found := RunCheck(RepeatedListToSet);
    }

    method CheckRepeatedListToMapConversion() returns (found: seq<Suggestion>)
      ensures found == CheckSpec(RepeatedListToMap, sourceCode)
    {
      found := RunCheck(RepeatedListToMap);
    }

    /** Runs every detector and appends their suggestions in a fixed order. */
    method Analyze()
      modifies this`suggestions
      ensures suggestions == old(suggestions) + AnalyzeSpec(sourceCode)
    {
      var a1 := CheckBadLookups();
      var a2 := CheckManualSearch();
      var b1 := CheckNestedLoops();
      var c1 := CheckQueueMisuse();
      var c2 := CheckManualCounting();
      var c3 := CheckSortingInsideLoop();
      var d1 := CheckBigListNeverIndexed();
      var d2 := CheckDuplicateDataStructures();
      var e1 := CheckArraySearchedByKey();
      var e2 := CheckListUsedAsDictionary();
      var f1 := CheckDictionaryOrderMisuse();
      var g1 := CheckBigTemporaryList();
      var g2 := CheckRepeatedListToSetConversion();
      var g3 := CheckRepeatedListToMapConversion();
      var all := a1 + a2 + b1 + c1 + c2 + c3 + d1 + d2 + e1 + e2 + f1 + g1 + g2 + g3;
      assert all == AnalyzeSpec(sourceCode);
      suggestions := suggestions + all;
    }

    function BuildReport(): (r: Report)
      reads this
      ensures r.fileName == None && r.suggestions == suggestions
    {
      Report(None, suggestions)
    }
  }
}
