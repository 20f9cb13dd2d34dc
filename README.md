# GreenCode-AI analysis core in Dafny

GreenCode-AI reviews Java code for energy efficiency, maintainability and
compliance with coding standards. Several agents each scan a Java file and
write a report. A gateway then turns those reports into the summaries the
dashboard shows. This project models the deterministic core of that
pipeline and proves what each part promises.

- **Data-structure agent** (`data_structure_agent.dfy`): a class holding the
  source and the suggestion list. Its detectors scan lines with a
  brace-depth state machine and report bad lookups inside loops, nested
  loops, queue misuse, large lists that are never indexed, and the rest.
  Each detector is a method proved against a specification function.
- **Parser and control-flow graphs** (`cond_tree.dfy`, `ast_parser.dfy`,
  `cfg_builder.dfy`, `cfg_analyzer.dfy`):
  - the if/else trees the static analyzer's parser builds, and its loop
    tree with its depth and loop count;
  - the statement, loop and conditional scan over a simplified syntax tree;
  - the method and class control-flow graphs, built imperatively with
    fresh ids;
  - the analyzer's cyclomatic number, nesting estimate and depth-first
    cycle detection.
- **Metrics**:
  - the static analyzer's nesting depth, function size and cyclomatic
    complexity, over JSON-like syntax objects (`json.dfy`);
  - the maintainability agent's six threshold metrics, the penalty score,
    the suggestion list, and the line counter that separates code lines
    from comment lines.
- **Rules**:
  - the compliance agent's naming, formatting and import checks;
  - its character-class naming patterns;
  - the optimization agent's dispatch over its three loop rules;
  - the static analyzer's metric-threshold and switch rules;
  - its severity report.
- **Gateway services**: the optimization, compliance and data-structure
  services. They recover the Java file name from a report's file name,
  classify and count issues, remove duplicate recommendations, and
  aggregate metrics over several files.

The shared modules are small. `text.dfy` holds the JavaScript string
primitives the code relies on. `regex.dfy` models the few patterns it
tests. `tally.dfy` models JavaScript objects used as counters, keeping
keys in insertion order. `seqs.dfy` and `wrappers.dfy` hold sequence
helpers and the Option and Result types.

Modelling conventions:

- JavaScript `a || b` defaults are written out for each type.
- Math.round is exact integer arithmetic.
- Penalty weights are integer hundredths.
- Method scores are whole numbers (`nat`) on the 0 to 100 scale. A file's
  average score is kept as the exact pair of total and method count.
- The gateway services' compliance scores and per-file averages are `real`.


## Model

| member | source | states |
|---|---|---|
| DataStructureAgent.Agent.constructor | modules/Multi_Agent/data_structure/data_structure_agent.js:4-10 | a new agent has no source and no suggestions |
| DataStructureAgent.Agent.LoadInput | modules/Multi_Agent/data_structure/data_structure_agent.js:12-18 | loading a file stores its source and resets the suggestions to empty |
| DataStructureAgent.Agent.Analyze | modules/Multi_Agent/data_structure/data_structure_agent.js:19-37 | the suggestions grow by the fourteen detectors' outputs appended in the fixed order bad lookups, manual search, nested loops, queue misuse, manual counting, sorting in loop, big list never indexed, duplicates, array searched by key, list as dictionary, dictionary order, big temporary list, list-to-set, list-to-map |
| DataStructureAgent.EmptySourceNoSuggestions | modules/Multi_Agent/data_structure/data_structure_agent.js:136-137 | a missing or empty source makes every detector, hence the whole analysis, return no suggestions |
| DataStructureAgent.Agent.RunCheck | modules/Multi_Agent/data_structure/data_structure_agent.js:134-176 | one detector's result equals its line-scan specification: no suggestions without a source, otherwise the scan over the newline-split lines |
| DataStructureAgent.ScanLoopRegions | modules/Multi_Agent/data_structure/data_structure_agent.js:141-174 | the brace-depth loop of a region detector produces exactly the suggestions of its specification: a header opens a region at depth 1 and is skipped, braces move the depth, depth 0 closes the region, and only lines inside a region are examined |
| DataStructureAgent.ScanEveryLine | modules/Multi_Agent/data_structure/data_structure_agent.js:283-307 | the loop of a detector that examines every line produces exactly its specification |
| DataStructureAgent.TrackerWellFormed | modules/Multi_Agent/data_structure/data_structure_agent.js:139-161 | inside a region the brace depth is at least 1, outside it is 0 |
| DataStructureAgent.EmittedLineNumbers | modules/Multi_Agent/data_structure/data_structure_agent.js:141-171 | every emitted line number is i+1 for a line i of the input, so it lies in 1..number of lines; a region detector never reports a loop header or a line outside a region |
| DataStructureAgent.EmittedExactly | modules/Multi_Agent/data_structure/data_structure_agent.js:141-171 | a line loop reports finding f on line i+1 exactly when it examines line i and the line shows f |
| DataStructureAgent.ScanReportsExactly | modules/Multi_Agent/data_structure/data_structure_agent.js:141-171 | detector c reports f on line i+1 iff it looks at line i (every line, or lines inside a loop region) and f is among that line's findings |
| DataStructureAgent.BadLookupsIff | modules/Multi_Agent/data_structure/data_structure_agent.js:145-171 | checkBadLookups reports line i+1 iff a loop region examines line i and its trimmed text contains ".contains(" — so a loop header line itself is never reported |
| DataStructureAgent.ClosedUntilHeader | modules/Multi_Agent/data_structure/data_structure_agent.js:152-161 | once the depth returns to 0 the region stays closed and no line is examined until the next loop header |
| DataStructureAgent.NothingAfterRegionCloses | modules/Multi_Agent/data_structure/data_structure_agent.js:152-161 | a region detector reports nothing on the lines after a region closes and before the next loop header |
| DataStructureAgent.QueueMisuseEverywhere | modules/Multi_Agent/data_structure/data_structure_agent.js:283-307 | checkQueueMisuse flags every line containing ".remove(0)" or ".shift()", whether or not it is inside a loop |
| DataStructureAgent.Agent.CheckBadLookups | modules/Multi_Agent/data_structure/data_structure_agent.js:134-176 | the result is the bad-lookup line-scan specification |
| DataStructureAgent.Agent.CheckManualSearch | modules/Multi_Agent/data_structure/data_structure_agent.js:177-228 | the result is the manual-search line-scan specification |
| DataStructureAgent.Agent.CheckNestedLoops | modules/Multi_Agent/data_structure/data_structure_agent.js:229-277 | the result is the nested-loop specification, and every suggestion's outerLoopStartsAt is less than its lineNumber |
| DataStructureAgent.ScanNestedLoops | modules/Multi_Agent/data_structure/data_structure_agent.js:237-275 | the loop tracking the outer loop, its start line and the brace depth produces exactly the nested-loop specification |
| DataStructureAgent.OuterLineEarlier | modules/Multi_Agent/data_structure/data_structure_agent.js:245-250 | while an outer loop is open, its recorded line is one of the lines already read |
| DataStructureAgent.NestedLoopsWellFormed | modules/Multi_Agent/data_structure/data_structure_agent.js:245-263 | a nested-loop suggestion is made only on a loop header while an outer loop is open, and 1 <= outerLoopStartsAt < lineNumber <= number of lines |
| DataStructureAgent.NestedAtWellFormed | modules/Multi_Agent/data_structure/data_structure_agent.js:251-262 | the suggestion made on one line names that line and an earlier outer loop line |
| DataStructureAgent.Agent.CheckQueueMisuse | modules/Multi_Agent/data_structure/data_structure_agent.js:278-309 | the result is the queue-misuse line-scan specification |
| DataStructureAgent.Agent.CheckManualCounting | modules/Multi_Agent/data_structure/data_structure_agent.js:310-361 | the result is the manual-counting line-scan specification |
| DataStructureAgent.Agent.CheckSortingInsideLoop | modules/Multi_Agent/data_structure/data_structure_agent.js:362-413 | the result is the sorting-in-loop line-scan specification |
| DataStructureAgent.Agent.CheckBigListNeverIndexed | modules/Multi_Agent/data_structure/data_structure_agent.js:414-461 | the result is the never-indexed specification over the three name collections |
| DataStructureAgent.CollectDeclarations | modules/Multi_Agent/data_structure/data_structure_agent.js:422-430 | pass 1 records the declared list names in first-declaration order and maps each to the line of its last declaration |
| DataStructureAgent.CollectNames | modules/Multi_Agent/data_structure/data_structure_agent.js:431-445 | passes 2 and 3 collect exactly the names the foreach and indexing patterns capture on some line |
| DataStructureAgent.ScanNeverIndexed | modules/Multi_Agent/data_structure/data_structure_agent.js:446-458 | the final loop over the declarations produces exactly the never-indexed specification |
| DataStructureAgent.DeclaredNamesAreKeys | modules/Multi_Agent/data_structure/data_structure_agent.js:419-430 | the declaration order lists exactly the keys of the declaration map |
| DataStructureAgent.DeclaredAtIsLastDeclaration | modules/Multi_Agent/data_structure/data_structure_agent.js:423-430 | a name is recorded iff some line declares it, and it maps to the 1-based number of the last such line |
| DataStructureAgent.NeverIndexedMembers | modules/Multi_Agent/data_structure/data_structure_agent.js:447-458 | a suggestion (v, d) is made iff v is declared at d, used in a foreach and never indexed |
| DataStructureAgent.NeverIndexedIff | modules/Multi_Agent/data_structure/data_structure_agent.js:447-458 | checkBigListNeverIndexed suggests a list iff it is declared, used in a foreach and never indexed, at the line of its last declaration |
| DataStructureAgent.SpanEnd | modules/Multi_Agent/data_structure/data_structure_agent.js:426 | the greedy run of class characters from a position ends at the first character outside the class |
| DataStructureAgent.Agent.CheckDuplicateDataStructures | modules/Multi_Agent/data_structure/data_structure_agent.js:462-526 | the result is the duplicate-structures line-scan specification |
| DataStructureAgent.Agent.CheckArraySearchedByKey | modules/Multi_Agent/data_structure/data_structure_agent.js:537-577 | the result is the array-searched-by-key line-scan specification |
| DataStructureAgent.Agent.CheckListUsedAsDictionary | modules/Multi_Agent/data_structure/data_structure_agent.js:578-609 | the result is the list-as-dictionary line-scan specification |
| DataStructureAgent.Agent.CheckDictionaryOrderMisuse | modules/Multi_Agent/data_structure/data_structure_agent.js:610-641 | the result is the dictionary-order line-scan specification |
| DataStructureAgent.Agent.CheckBigTemporaryList | modules/Multi_Agent/data_structure/data_structure_agent.js:642-670 | the result is the big-temporary-list line-scan specification |
| DataStructureAgent.Agent.CheckRepeatedListToSetConversion | modules/Multi_Agent/data_structure/data_structure_agent.js:38-79 | the result is the list-to-set line-scan specification |
| DataStructureAgent.Agent.CheckRepeatedListToMapConversion | modules/Multi_Agent/data_structure/data_structure_agent.js:80-133 | the result is the list-to-map line-scan specification |
| DataStructureAgent.Agent.BuildReport | modules/Multi_Agent/data_structure/data_structure_agent.js:672-678 | the report has no file name and carries the agent's suggestions |
| CfgAnalyzer.ComputeCyclomatic | modules/energy-analyzer/dist/analyzers/cfgAnalyzer.js:13-21 | the result is at least 1; a missing CFG or one without node or edge arrays gives 1; otherwise it is max(1, E − N + 2) |
| CfgAnalyzer.CyclomaticEdgeMonotone | modules/energy-analyzer/dist/analyzers/cfgAnalyzer.js:16-20 | adding an edge never lowers the complexity, and raises it by exactly 1 once E + 1 >= N |
| CfgAnalyzer.EstimateNestingDepth | modules/energy-analyzer/dist/analyzers/cfgAnalyzer.js:23-33 | a missing CFG or node array gives 1; otherwise the depth is 1 + the number of nodes whose lowercased label (or type) contains for, while, loop or foreach |
| CfgAnalyzer.LoopLikeCount | modules/energy-analyzer/dist/analyzers/cfgAnalyzer.js:27-31 | the number of loop-like nodes is at most the number of nodes |
| CfgAnalyzer.NestingEstimateBounds | modules/energy-analyzer/dist/analyzers/cfgAnalyzer.js:27-31 | the loop-like count is bounded by the node count, equals it when every node is loop-like and is 0 when none is |
| CfgAnalyzer.ForeachImpliesFor | modules/energy-analyzer/dist/analyzers/cfgAnalyzer.js:29 | a label containing "foreach" already contains "for", so the fourth test never changes the outcome |
| CfgAnalyzer.AddNodesShape | modules/energy-analyzer/dist/analyzers/cfgAnalyzer.js:39-40 | the node loop creates an empty successor list for each node id and nothing else |
| CfgAnalyzer.AddEdgesShape | modules/energy-analyzer/dist/analyzers/cfgAnalyzer.js:41-46 | the edge loop makes v a successor of u exactly when (u, v) is an edge, creating lists for sources that are not nodes |
| CfgAnalyzer.AdjacencyIsEdges | modules/energy-analyzer/dist/analyzers/cfgAnalyzer.js:38-46 | the adjacency relation hasCycle searches is exactly the edge list, edges from unknown ids included |
| CfgAnalyzer.Rank | modules/energy-analyzer/dist/analyzers/cfgAnalyzer.js:63 | the position of a finished node in the finishing order |
| CfgAnalyzer.RanksDecrease | modules/energy-analyzer/dist/analyzers/cfgAnalyzer.js:50-64 | along a path of finished nodes the finishing ranks strictly decrease |
| CfgAnalyzer.NoCycleInFinished | modules/energy-analyzer/dist/analyzers/cfgAnalyzer.js:50-64 | no directed cycle runs through finished nodes only |
| CfgAnalyzer.EnterKeeps | modules/energy-analyzer/dist/analyzers/cfgAnalyzer.js:53-54 | marking u visited and pushing it keeps the search invariant |
| CfgAnalyzer.LeaveKeeps | modules/energy-analyzer/dist/analyzers/cfgAnalyzer.js:63 | popping u once all its successors are finished keeps the search invariant |
| CfgAnalyzer.BackEdgeCycle | modules/energy-analyzer/dist/analyzers/cfgAnalyzer.js:58-60 | an edge back to a node on the current DFS path closes a directed cycle |
| CfgAnalyzer.CycleSearch.constructor | modules/energy-analyzer/dist/analyzers/cfgAnalyzer.js:47-49 | the search starts with nothing visited, an empty stack and found false |
| CfgAnalyzer.CycleSearch.Dfs | modules/energy-analyzer/dist/analyzers/cfgAnalyzer.js:50-64 | dfs(u) never clears found; when it returns without finding a cycle, u is finished and the stack is as before |
| CfgAnalyzer.CycleSearch.Enter | modules/energy-analyzer/dist/analyzers/cfgAnalyzer.js:53-54 | u is added to visited and to the stack |
| CfgAnalyzer.CycleSearch.Leave | modules/energy-analyzer/dist/analyzers/cfgAnalyzer.js:63 | u leaves the stack and is finished |
| CfgAnalyzer.CycleSearch.Visit | modules/energy-analyzer/dist/analyzers/cfgAnalyzer.js:55-61 | one successor: recurse when unvisited, set found on a node still on the stack |
| CfgAnalyzer.SearchCycle | modules/energy-analyzer/dist/analyzers/cfgAnalyzer.js:65-71 | the outer DFS loop sets found exactly when the adjacency has a directed cycle |
| CfgAnalyzer.HasCycle | modules/energy-analyzer/dist/analyzers/cfgAnalyzer.js:35-72 | false when nodes or edges are missing; otherwise true iff the edge relation contains a directed cycle, self-loops included |
| CfgBuilder.UuidSource.constructor | modules/static-analyzer/src/analysis/cfg/CFGBuilder.ts:1 | the id source starts at 0 |
| CfgBuilder.UuidSource.Fresh | modules/static-analyzer/src/analysis/cfg/CFGBuilder.ts:12-13 | each call returns an id never handed out before (the counter) and advances the counter |
| CfgBuilder.AttachKeeps | modules/static-analyzer/src/analysis/cfg/CFGBuilder.ts:28-31 | pushing a fresh statement node with an edge from an existing node keeps every edge endpoint a node id and every id below the counter |
| CfgBuilder.GrownAttach | modules/static-analyzer/src/analysis/cfg/CFGBuilder.ts:28-32 | one statement or condition node plus one edge from the previous last node grows the graph at its end |
| CfgBuilder.GrownTrans | modules/static-analyzer/src/analysis/cfg/CFGBuilder.ts:26-73 | growing a graph twice is growing it once |
| CfgBuilder.AppendChain | modules/static-analyzer/src/analysis/cfg/CFGBuilder.ts:27-33 | the chain loop adds one node per label with fresh ids in order, each linked from the previous one and the first from the current last node |
| CfgBuilder.ChainLoop | modules/static-analyzer/src/analysis/cfg/CFGBuilder.ts:37-42 | the loop adds exactly the chain's nodes and edges and leaves the last node id as the last added (or the previous last when there are no labels) |
| CfgBuilder.ChainFacts | modules/static-analyzer/src/analysis/cfg/CFGBuilder.ts:26-73 | a chain appended to a partial graph is a growth of it |
| CfgBuilder.GrownByChain | modules/static-analyzer/src/analysis/cfg/CFGBuilder.ts:26-73 | nodes with consecutive fresh ids and edges linking each to the previous one grow the graph |
| CfgBuilder.ChainNodesOk | modules/static-analyzer/src/analysis/cfg/CFGBuilder.ts:28-30 | the chain nodes have distinct ids below the counter and empty next lists |
| CfgBuilder.ChainEdgesOk | modules/static-analyzer/src/analysis/cfg/CFGBuilder.ts:31 | the chain edges join existing nodes and go forward |
| CfgBuilder.ChainAttach | modules/static-analyzer/src/analysis/cfg/CFGBuilder.ts:30-32 | a node linked from the last node of a chain extends the chain |
| CfgBuilder.ChainExtend | modules/static-analyzer/src/analysis/cfg/CFGBuilder.ts:26-73 | a chain appended to a chain is a chain |
| CfgBuilder.NewNodes | modules/static-analyzer/src/analysis/cfg/CFGBuilder.ts:28-30 | the chain adds one node per label |
| CfgBuilder.ChainEdges | modules/static-analyzer/src/analysis/cfg/CFGBuilder.ts:31 | the chain adds one edge per node |
| CfgBuilder.ThenLabels | modules/static-analyzer/src/analysis/cfg/CFGBuilder.ts:115 | one label per then statement, its type or then_stmt_idx |
| CfgBuilder.StatementLabels | modules/static-analyzer/src/analysis/cfg/CFGBuilder.ts:29 | one label per statement: name, type or stmt_idx |
| CfgBuilder.OrEach | modules/static-analyzer/src/analysis/cfg/CFGBuilder.ts:39 | one label per loop or conditional, with the default for a falsy one |
| CfgBuilder.ChainLabels | modules/static-analyzer/src/analysis/cfg/CFGBuilder.ts:69 | one label per constructor-chaining entry: type(args joined by ", ") |
| CfgBuilder.Labels | modules/static-analyzer/src/analysis/cfg/CFGBuilder.ts:14-15 | the labels of a node list, one per node |
| CfgBuilder.ProcessConditionTree | modules/static-analyzer/src/analysis/cfg/CFGBuilder.ts:103-149 | adds one condition node (label type or "if") linked from the parent, then the branches below it, and returns a non-empty list of exits, all nodes created by this call; an else-if stored as an object adds no else branch |
| CfgBuilder.ConditionThen | modules/static-analyzer/src/analysis/cfg/CFGBuilder.ts:103-124 | the condition node gets the next fresh id and an edge from the parent; the then chain follows it; the one exit is a node of the graph created from the condition onwards |
| CfgBuilder.ProcessElse | modules/static-analyzer/src/analysis/cfg/CFGBuilder.ts:127-143 | a nested IfStatement becomes a condition tree below the condition whose exits are collected; any other entry extends the else chain; every exit is a node created here |
| CfgBuilder.FindById | modules/static-analyzer/src/analysis/cfg/CFGBuilder.ts:80 | nodes.find by id: the first node with that id, or none when the id is absent |
| CfgBuilder.ConnectNext | modules/static-analyzer/src/analysis/cfg/CFGBuilder.ts:79-84 | every node's next list becomes the distinct targets of its outgoing edges, in edge order, and nothing else changes |
| CfgBuilder.BuildingStep | modules/static-analyzer/src/analysis/cfg/CFGBuilder.ts:26-73 | each construction phase keeps Start and End first, adds only statement and condition nodes newer than End, one edge per added node, and never touches End |
| CfgBuilder.FinishBuild | modules/static-analyzer/src/analysis/cfg/CFGBuilder.ts:76-84 | the final edge into End and the next lists complete a built graph |
| CfgBuilder.FinishedNodes | modules/static-analyzer/src/analysis/cfg/CFGBuilder.ts:14-15 | the finished nodes have the kinds, distinct fresh ids and next lists a built graph asks for |
| CfgBuilder.FinishedEdges | modules/static-analyzer/src/analysis/cfg/CFGBuilder.ts:76 | with the edge into End, the edge count is the node count minus one and only the last edge enters End |
| CfgBuilder.FinishChain | modules/static-analyzer/src/analysis/cfg/CFGBuilder.ts:26-76 | without an if tree the finished graph is the chain Start, statements, loops, conditionals, chaining entries, End, each edge joining consecutive nodes |
| CfgBuilder.BuildChain | modules/static-analyzer/src/analysis/cfg/CFGBuilder.ts:37-50 | one chain loop of buildCFG on a graph under construction appends its labels after End in order |
| CfgBuilder.BuildChainFacts | modules/static-analyzer/src/analysis/cfg/CFGBuilder.ts:37-50 | a chain loop keeps the construction invariant and appends its labels |
| CfgBuilder.BuildTrees | modules/static-analyzer/src/analysis/cfg/CFGBuilder.ts:53-64 | each if tree hangs below the current last node; the last node becomes one of its exits; no tree changes nothing |
| CfgBuilder.InitialGraph | modules/static-analyzer/src/analysis/cfg/CFGBuilder.ts:12-17 | Start and End with no edge satisfy the construction invariant |
| CfgBuilder.BuildBody | modules/static-analyzer/src/analysis/cfg/CFGBuilder.ts:19-73 | statements, loops, conditionals, if trees and chaining entries are added in that order, at least one node each |
| CfgBuilder.BuildCfg | modules/static-analyzer/src/analysis/cfg/CFGBuilder.ts:8-90 | exactly one Start (first) and one End (second) node; fresh distinct ids; every edge endpoint is a node; there is one edge fewer than nodes; the final edge enters End; next lists are the distinct edge targets; the method name defaults to "anonymous"; without an if tree the graph is the chain of labels in source order |
| CfgBuilder.FinishCfg | modules/static-analyzer/src/analysis/cfg/CFGBuilder.ts:75-89 | the final edge and next lists turn a graph under construction into a built graph |
| CfgBuilder.ToAnalyzer | modules/static-analyzer/src/analysis/cfg/CFGBuilder.ts:89 | a built graph read by the analyzer keeps its nodes and edges |
| CfgBuilder.BuiltCyclomaticOne | modules/static-analyzer/src/analysis/cfg/CFGBuilder.ts:8-90 | a method graph has one edge fewer than nodes, so the analyzer's cyclomatic complexity of it is always 1 |
| CfgBuilder.BuiltAcyclic | modules/static-analyzer/src/analysis/cfg/CFGBuilder.ts:8-90 | a method graph has no directed cycle, so the analyzer's cycle test is false on it |
| CfgBuilder.ForwardAcyclic | modules/static-analyzer/src/analysis/cfg/CFGBuilder.ts:26-76 | edges that go forward except a last one into a node nothing leaves form no cycle |
| CfgBuilder.FindKind | modules/static-analyzer/src/analysis/cfg/CFGBuilder.ts:186 | nodes.find by type: the first node of that kind, or none |
| CfgBuilder.Relabel | modules/static-analyzer/src/analysis/cfg/CFGBuilder.ts:177-179 | every node's label is prefixed with Class.method → and nothing else changes |
| CfgBuilder.BuiltBlock | modules/static-analyzer/src/analysis/cfg/CFGBuilder.ts:174 | a method graph has what the class builder relies on |
| CfgBuilder.RelabelBlock | modules/static-analyzer/src/analysis/cfg/CFGBuilder.ts:177-179 | relabelling changes no id, kind or edge |
| CfgBuilder.LinkFromIn | modules/static-analyzer/src/analysis/cfg/CFGBuilder.ts:185-191 | the node a method is linked from is in the class graph |
| CfgBuilder.ClassStep | modules/static-analyzer/src/analysis/cfg/CFGBuilder.ts:172-192 | merging one method graph keeps the class invariant |
| CfgBuilder.ClassShapeStep | modules/static-analyzer/src/analysis/cfg/CFGBuilder.ts:182 | the merged method forms a block whose first node is its Start and second its End |
| CfgBuilder.ClassIdsStep | modules/static-analyzer/src/analysis/cfg/CFGBuilder.ts:182 | ids stay distinct and fresh after the merge |
| CfgBuilder.ClassEdgesStep | modules/static-analyzer/src/analysis/cfg/CFGBuilder.ts:183-187 | every edge endpoint is still a node after the merge |
| CfgBuilder.ClassLinksStep | modules/static-analyzer/src/analysis/cfg/CFGBuilder.ts:185-191 | each method is linked from the previous method's End, the first from the class Start |
| CfgBuilder.ClassFinish | modules/static-analyzer/src/analysis/cfg/CFGBuilder.ts:194-201 | the final edge into the class End completes the class graph, and each node's next list, grown from its method-graph list over all class edges, is exactly the distinct targets of its edges |
| CfgBuilder.MethodBlock | modules/static-analyzer/src/analysis/cfg/CFGBuilder.ts:174-179 | the block is the method's own buildCFG graph with every label prefixed by Class.method →, its edges unchanged and its next lists those of the method graph |
| CfgBuilder.MergeMethod | modules/static-analyzer/src/analysis/cfg/CFGBuilder.ts:172-192 | one pass of the method loop appends exactly the relabelled buildCFG graph of the method and its edges, links the previous last node to the method's Start, makes the method's End the new last node, and keeps the class invariant and the next-list invariant |
| CfgBuilder.FinishClass | modules/static-analyzer/src/analysis/cfg/CFGBuilder.ts:194-207 | the class graph is named after the class, gains exactly the edge from the last node into the class End, and every next list becomes the distinct targets of the node's edges |
| CfgBuilder.BuildClassCfg | modules/static-analyzer/src/analysis/cfg/CFGBuilder.ts:157-208 | the nodes are Start (name), End (name) and then, for each method in order, its own buildCFG graph relabelled with Class.method →; the edges are each method's edges followed by the link from the previous End (or the class Start) into its Start, and a final edge into the class End; every next list is the distinct targets of the node's edges |
| CfgBuilder.ConnectedBuilt | modules/static-analyzer/src/analysis/cfg/CFGBuilder.ts:198-201 | rewriting only the next lists keeps the class invariant |
| CfgBuilder.TargetsAppend | modules/static-analyzer/src/analysis/cfg/CFGBuilder.ts:198-199 | the targets of u over two edge lists are those over the first followed by those over the second |
| CfgBuilder.TargetsAbsent | modules/static-analyzer/src/analysis/cfg/CFGBuilder.ts:198-199 | a node no edge leaves has no targets |
| CfgBuilder.ExtendAppend | modules/static-analyzer/src/analysis/cfg/CFGBuilder.ts:200 | growing a next list over two target lists is growing it over the first, then the second |
| CfgBuilder.ExtendPresent | modules/static-analyzer/src/analysis/cfg/CFGBuilder.ts:200 | targets already in the next list add nothing to it |
| CfgBuilder.DistinctAfter | modules/static-analyzer/src/analysis/cfg/CFGBuilder.ts:198-201 | a next list that holds the distinct targets of some edges still does after more edges are processed |
| CfgBuilder.NextOkAppend | modules/static-analyzer/src/analysis/cfg/CFGBuilder.ts:198-201 | appending edges keeps every next list equal, after the connect loop, to the distinct targets |
| CfgBuilder.MergeNextOk | modules/static-analyzer/src/analysis/cfg/CFGBuilder.ts:181-187 | merging a method graph with fresh ids, its edges and the link into its Start keeps the next-list invariant for the old nodes and the new ones |
| CfgBuilder.NextOkJoin | modules/static-analyzer/src/analysis/cfg/CFGBuilder.ts:182 | the next-list invariant of the old nodes and of the new block is that of the merged list |
| CfgBuilder.IdsBelow | modules/static-analyzer/src/analysis/cfg/CFGBuilder.ts:174 | every id of the class graph so far is below the id counter |
| CfgBuilder.SourcesBelow | modules/static-analyzer/src/analysis/cfg/CFGBuilder.ts:183 | every edge of the class graph so far leaves a node below the id counter |
| CfgBuilder.FreshNext | modules/static-analyzer/src/analysis/cfg/CFGBuilder.ts:198-201 | a node of the new method graph, which no earlier edge leaves, keeps the next list buildCFG gave it, and that list is its distinct targets in the class graph |
| CfgBuilder.MergedStep | modules/static-analyzer/src/analysis/cfg/CFGBuilder.ts:172-192 | merging one more method graph appends its relabelled nodes, its edges and the link from the previous last node into its Start, and moves the last node to its End |
| CfgBuilder.FindStartEnd | modules/static-analyzer/src/analysis/cfg/CFGBuilder.ts:186-190 | in a method graph, find by type start gives the first node and find by type end the second |
| CfgBuilder.MethodCfgsSnoc | modules/static-analyzer/src/analysis/cfg/CFGBuilder.ts:174 | one more buildCFG graph drawn from the next id range extends the per-method record |
| CfgBuilder.MergedUpToStep | modules/static-analyzer/src/analysis/cfg/CFGBuilder.ts:172-192 | one pass of the method loop keeps the loop state: the class graph is the head followed by the relabelled method graphs, with their edges and links |
| CfgBuilder.MergeMethods | modules/static-analyzer/src/analysis/cfg/CFGBuilder.ts:172-192 | after the method loop, the nodes are the class Start and End then each method's relabelled graph in order, the edges are the method edges and links, the last node is the last method's End (or the class Start), and each method graph is buildCFG of that method |
| AstParser.Kids | modules/static-analyzer/dist/parser/ASTParser.js:189-195 | the children in the order Object.values(node.children) lists them, each strictly smaller than the node |
| AstParser.ChildArray | modules/static-analyzer/dist/parser/ASTParser.js:126 | node.children?.[key]: when present, every element is strictly inside the node |
| AstParser.ChildAt | modules/static-analyzer/dist/parser/ASTParser.js:205 | node.children?.[key]?.[i]: when present, strictly inside the node |
| AstParser.ParseIfStatement | modules/static-analyzer/dist/parser/ASTParser.js:197-218 | always builds an IfStatement object: then block from statement[0], else-if object when statement[1]'s name contains "if", else list otherwise, no else when absent |
| AstParser.ParseIfShaped | modules/static-analyzer/dist/parser/ASTParser.js:197-218 | the tree parseIfStatement builds has only IfStatement and Statement entries, and an else-if is itself an IfStatement |
| AstParser.CollectShaped | modules/static-analyzer/dist/parser/ASTParser.js:219-258 | every entry collectStatements returns is such a tree |
| AstParser.CollectAllShaped | modules/static-analyzer/dist/parser/ASTParser.js:234-238 | the same for the entries collected from a list of children |
| AstParser.SwitchTokenEventsTagged | modules/static-analyzer/dist/parser/ASTParser.js:139-144 | the tokens of a switch block only add the conditionals "case" and "default" uniquely |
| AstParser.OwnEventsTagged | modules/static-analyzer/dist/parser/ASTParser.js:133-188 | a node's own tags add loops and conditionals with addUnique, except superCall and thisRef, which are pushed |
| AstParser.EventsTagged | modules/static-analyzer/dist/parser/ASTParser.js:111-196 | every update of a whole scan has that form |
| AstParser.EventsAllTagged | modules/static-analyzer/dist/parser/ASTParser.js:190-194 | the same for a scan over a list of children |
| AstParser.WellTaggedAppend | modules/static-analyzer/dist/parser/ASTParser.js:111-196 | two well-formed update lists joined stay well formed |
| AstParser.ApplyAppend | modules/static-analyzer/dist/parser/ASTParser.js:111-196 | performing two update lists one after the other is performing their concatenation |
| AstParser.ApplyLoops | modules/static-analyzer/dist/parser/ASTParser.js:114-117 | addUnique keeps loops duplicate-free, and a tag is in the result iff it was there before or was added |
| AstParser.ApplyConditionalOnce | modules/static-analyzer/dist/parser/ASTParser.js:114-117 | a conditional added only by addUnique occurs at most once |
| AstParser.ApplyPushCount | modules/static-analyzer/dist/parser/ASTParser.js:159-164 | a pushed conditional occurs once per push on top of what was there |
| AstParser.ScanFacts | modules/static-analyzer/dist/parser/ASTParser.js:111-196 | after a scan from an empty method object, loops have no duplicates, every conditional other than superCall and thisRef occurs at most once, and superCall occurs once per superMethodInvocation |
| AstParser.MethodObj.constructor | modules/static-analyzer/dist/parser/ASTParser.js:446 | a method object starts with no loops, no conditionals and no conditionalsTree |
| AstParser.MethodObj.AddUniqueConditional | modules/static-analyzer/dist/parser/ASTParser.js:114-117 | pushes the tag to conditionals only when absent |
| AstParser.MethodObj.AddUniqueLoop | modules/static-analyzer/dist/parser/ASTParser.js:114-117 | pushes the tag to loops only when absent |
| AstParser.MethodObj.FindLoopsAndConditionals | modules/static-analyzer/dist/parser/ASTParser.js:111-196 | the new state is the old state with the scan's updates performed in order |
| AstParser.MethodObj.ScanIf | modules/static-analyzer/dist/parser/ASTParser.js:118-132 | an if adds "if", pushes its tree to conditionalsTree only when not nested, then scans its statements as nested and stops |
| AstParser.MethodObj.ScanAll | modules/static-analyzer/dist/parser/ASTParser.js:190-194 | scanning an array of children performs each child's updates in order |
| AstParser.MethodObj.ScanOne | modules/static-analyzer/dist/parser/ASTParser.js:192 | one step of that forEach |
| AstParser.MethodObj.OwnUpdates | modules/static-analyzer/dist/parser/ASTParser.js:133-188 | the updates a node other than an if makes for its own name |
| AstParser.MethodObj.SwitchUpdates | modules/static-analyzer/dist/parser/ASTParser.js:133-146 | a switch adds "switch", then "case" and "default" as its block's tokens show them |
| AstParser.MethodObj.SwitchToken | modules/static-analyzer/dist/parser/ASTParser.js:139-144 | one token of a switch block |
| AstParser.MethodObj.TagUpdates | modules/static-analyzer/dist/parser/ASTParser.js:147-188 | the loop, try, return and other tags, with superCall and thisRef pushed |
| AstParser.BodyEntry | modules/static-analyzer/dist/parser/ASTParser.js:291-296 | the scan of a loop body continues at the block's first blockStatements, otherwise at the body itself, which is never larger |
| AstParser.LoopForestDepths | modules/static-analyzer/dist/parser/ASTParser.js:259-318 | every root of buildLoopTree(n, [], d) has depth d and each loop's nested loops are one level deeper |
| AstParser.BlockStatementsDepths | modules/static-analyzer/dist/parser/ASTParser.js:300-306 | the same for the loops found through a blockStatements node |
| AstParser.ForestAllDepths | modules/static-analyzer/dist/parser/ASTParser.js:308-316 | the same for the loops found among all children |
| AstParser.DepthsFromAppend | modules/static-analyzer/dist/parser/ASTParser.js:297 | pushing loops of one depth after loops of the same depth keeps the depths |
| AstParser.BuildLoopTree | modules/static-analyzer/dist/parser/ASTParser.js:259-318 | returns currentLoops followed by the loops found below the node, in the order they are pushed |
| AstParser.BuildBlockStatements | modules/static-analyzer/dist/parser/ASTParser.js:300-306 | the blockStatements case scans the statement of each blockStatement, in order |
| AstParser.BlockStatementsStep | modules/static-analyzer/dist/parser/ASTParser.js:301-305 | one blockStatement of that loop |
| AstParser.ForestAllStep | modules/static-analyzer/dist/parser/ASTParser.js:309-315 | one child of the scan over all children |
| AstParser.BuildAll | modules/static-analyzer/dist/parser/ASTParser.js:308-317 | the loops of every child array, in order, after currentLoops |
| AstParser.FlattenAppend | modules/static-analyzer/dist/parser/ASTParser.js:332-342 | the loops of two forests joined are the loops of each, in order |
| AstParser.CountIsNodeCount | modules/static-analyzer/dist/parser/ASTParser.js:332-342 | countTotalLoops counts every loop of the forest exactly once |
| AstParser.NestedCountsAreNodeCounts | modules/static-analyzer/dist/parser/ASTParser.js:336-340 | the roots plus the loops nested below each root are all the loops |
| AstParser.MaxDepthAtMostCount | modules/static-analyzer/dist/parser/ASTParser.js:319-342 | calculateMaxDepth never exceeds countTotalLoops |
| AstParser.MaxDepthAtMostSize | modules/static-analyzer/dist/parser/ASTParser.js:319-331 | calculateMaxDepth never exceeds the number of loops |
| AstParser.MaxDepthMatchesDepths | modules/static-analyzer/dist/parser/ASTParser.js:319-331 | on a forest rooted at depth d, every loop has depth below d + calculateMaxDepth and, when the forest is non-empty, some loop has depth d + calculateMaxDepth − 1 |
| AstParser.FlattenLast | modules/static-analyzer/dist/parser/ASTParser.js:323-329 | the loops of a forest are those of all but its last tree, then the last tree's |
| AstParser.MaxDepthBounds | modules/static-analyzer/dist/parser/ASTParser.js:319-331 | no loop is deeper than the forest's maximum depth allows |
| AstParser.MaxDepthReached | modules/static-analyzer/dist/parser/ASTParser.js:319-331 | some loop reaches that depth |
| AstParser.LoopMetrics | modules/static-analyzer/dist/parser/ASTParser.js:449-454 | when the loop tree of a method body is non-empty, 1 <= loopNestingDepth <= totalLoopCount, no loop's recorded depth reaches loopNestingDepth and some loop's depth is loopNestingDepth − 1 |
| NestingDepth.Nest | modules/static-analyzer/src/analysis/metrics/NestingDepth.ts:10-24 | a node adds one level exactly when its lower-cased name contains one of the eight nesting keywords, and none otherwise |
| NestingDepth.Props | modules/static-analyzer/src/analysis/metrics/NestingDepth.ts:36 | the properties of an object, each strictly inside it |
| NestingDepth.PropNodes | modules/static-analyzer/src/analysis/metrics/NestingDepth.ts:36-43 | the non-array object properties other than children, name and value, each strictly inside the node |
| NestingDepth.Subnodes | modules/static-analyzer/src/analysis/metrics/NestingDepth.ts:27-43 | everything the traversal recurses into, children first and then the other properties, each strictly inside the node |
| NestingDepth.Contrib | modules/static-analyzer/src/analysis/metrics/NestingDepth.ts:6 | a falsy value contributes nothing (−1), a truthy one its reach |
| NestingDepth.ReachAll | modules/static-analyzer/src/analysis/metrics/NestingDepth.ts:30 | the deepest reach among a list of values, −1 when none is truthy |
| NestingDepth.ReachAllSnoc | modules/static-analyzer/src/analysis/metrics/NestingDepth.ts:30 | visiting one more value takes the larger of the reach so far and its contribution |
| NestingDepth.ReachAllAppend | modules/static-analyzer/src/analysis/metrics/NestingDepth.ts:28-43 | the reach of two runs of values visited in turn is the larger of the two |
| NestingDepth.SnocMax | modules/static-analyzer/src/analysis/metrics/NestingDepth.ts:8 | after one more value at depth d the running maxDepth is the old one or the deepest that value reaches, whichever is larger |
| NestingDepth.AppendMax | modules/static-analyzer/src/analysis/metrics/NestingDepth.ts:28-43 | the same for a run of values |
| NestingDepth.VisitMax | modules/static-analyzer/src/analysis/metrics/NestingDepth.ts:5-8 | visiting a node records its own depth, then its subnodes one level deeper if it nests |
| NestingDepth.FlatReach | modules/static-analyzer/src/analysis/metrics/NestingDepth.ts:13-24 | a tree without any nesting node records nothing deeper than where its traversal starts |
| NestingDepth.FlatAllReach | modules/static-analyzer/src/analysis/metrics/NestingDepth.ts:28-43 | the same for a list of such trees |
| NestingDepth.WrapShape | modules/static-analyzer/src/analysis/metrics/NestingDepth.ts:27-43 | the traversal of a node holding one object under children reaches exactly that object |
| NestingDepth.WrapProps | modules/static-analyzer/src/analysis/metrics/NestingDepth.ts:37 | the children and name properties are not followed as other properties |
| NestingDepth.WrapReach | modules/static-analyzer/src/analysis/metrics/NestingDepth.ts:24 | wrapping an object in a node adds one level exactly when the wrapper's name is a nesting name |
| NestingDepth.ReachOne | modules/static-analyzer/src/analysis/metrics/NestingDepth.ts:30 | a single truthy value reaches as far as it does on its own |
| NestingDepth.DepthTracker.constructor | modules/static-analyzer/src/analysis/metrics/NestingDepth.ts:3 | maxDepth starts at 0 |
| NestingDepth.DepthTracker.Traverse | modules/static-analyzer/src/analysis/metrics/NestingDepth.ts:5-44 | traverse(node, d) raises maxDepth to d plus the node's reach, or leaves it when that is smaller or the node is falsy |
| NestingDepth.DepthTracker.TraverseChildren | modules/static-analyzer/src/analysis/metrics/NestingDepth.ts:27-33 | the children loop raises maxDepth by the deepest reach among the children, one level deeper |
| NestingDepth.DepthTracker.TraverseEntry | modules/static-analyzer/src/analysis/metrics/NestingDepth.ts:29-31 | one entry of node.children: an array item by item, an object itself |
| NestingDepth.DepthTracker.TraverseItems | modules/static-analyzer/src/analysis/metrics/NestingDepth.ts:30 | child.forEach(c => traverse(c, nextDepth)) |
| NestingDepth.DepthTracker.TraverseProps | modules/static-analyzer/src/analysis/metrics/NestingDepth.ts:36-43 | the Object.keys loop over the remaining object properties |
| NestingDepth.CalculateNestingDepth | modules/static-analyzer/src/analysis/metrics/NestingDepth.ts:2-48 | the result is the deepest nesting level reached below the body, and 0 when the method has no truthy body |
| FunctionSize.Counted | modules/static-analyzer/src/analysis/metrics/FunctionSize.ts:8-22 | a visited node adds one exactly when its lower-cased name is one of the eight statement names |
| FunctionSize.SizeAllSnoc | modules/static-analyzer/src/analysis/metrics/FunctionSize.ts:27 | visiting one more value adds its size |
| FunctionSize.SizeAllAppend | modules/static-analyzer/src/analysis/metrics/FunctionSize.ts:25-30 | the size of two runs of values is the sum of their sizes |
| FunctionSize.StatementCountAppend | modules/static-analyzer/src/analysis/metrics/FunctionSize.ts:11-22 | statement counts add up over concatenation |
| FunctionSize.SizeCountsStatements | modules/static-analyzer/src/analysis/metrics/FunctionSize.ts:5-31 | the size is the number of visited nodes with a statement name |
| FunctionSize.SizeAllCountsStatements | modules/static-analyzer/src/analysis/metrics/FunctionSize.ts:25-30 | the same for a list of values |
| FunctionSize.WrapSize | modules/static-analyzer/src/analysis/metrics/FunctionSize.ts:22-28 | wrapping a node adds one exactly when the wrapper has a statement name |
| FunctionSize.OtherPropertyIgnored | modules/static-analyzer/src/analysis/metrics/FunctionSize.ts:25-30 | a property other than children does not change the size |
| FunctionSize.SizeAllSame | modules/static-analyzer/src/analysis/metrics/FunctionSize.ts:25-30 | the size of a list of values does not depend on the node holding it |
| FunctionSize.SizeCounter.constructor | modules/static-analyzer/src/analysis/metrics/FunctionSize.ts:3 | size starts at 0 |
| FunctionSize.SizeCounter.Traverse | modules/static-analyzer/src/analysis/metrics/FunctionSize.ts:5-31 | traverse(node) adds the node's size to the counter |
| FunctionSize.SizeCounter.TraverseChildren | modules/static-analyzer/src/analysis/metrics/FunctionSize.ts:25-30 | the Object.values(node.children) loop adds the size of every child |
| FunctionSize.SizeCounter.TraverseEntry | modules/static-analyzer/src/analysis/metrics/FunctionSize.ts:27-28 | one value of node.children: an array item by item, an object itself |
| FunctionSize.SizeCounter.TraverseItems | modules/static-analyzer/src/analysis/metrics/FunctionSize.ts:27 | arr.forEach(traverse) |
| FunctionSize.CalculateFunctionSize | modules/static-analyzer/src/analysis/metrics/FunctionSize.ts:2-35 | the result counts the statement nodes below the body, and is 0 without a body |
| CyclomaticComplexity.CyclomaticComplexityOf | modules/static-analyzer/src/analysis/metrics/CyclomaticComplexity.ts:1-14 | the complexity is at least 1 |
| CyclomaticComplexity.ComplexityCountsConditionals | modules/static-analyzer/src/analysis/metrics/CyclomaticComplexity.ts:6-11 | with a conditionals array the complexity is 1 plus its length |
| CyclomaticComplexity.OneMoreConditional | modules/static-analyzer/src/analysis/metrics/CyclomaticComplexity.ts:11 | recording one more conditional raises the complexity by exactly one |
| CyclomaticComplexity.NoConditionalsArray | modules/static-analyzer/src/analysis/metrics/CyclomaticComplexity.ts:6-8 | without a conditionals array the complexity is 1 |
| MetricsHelper.Grade | modules/Multi_Agent/maintainability_agent/src/metrics/metricsHelper.ts:15-19 | High exactly when the high test holds, Medium exactly when only the medium test holds, Low otherwise, with the matching penalty |
| MetricsHelper.EstimateLoc | modules/Multi_Agent/maintainability_agent/src/metrics/metricsHelper.ts:146-154 | the estimated line count is at least 5 |
| MetricsHelper.EstimateCounts | modules/Multi_Agent/maintainability_agent/src/metrics/metricsHelper.ts:148-152 | one more loop adds 10 lines, one more conditional 5, one more parameter 2 |
| MetricsHelper.Loc | modules/Multi_Agent/maintainability_agent/src/metrics/metricsHelper.ts:14 | a given real line count wins, and the estimate is used when it is absent or 0 |
| MetricsHelper.CheckFunctionLength | modules/Multi_Agent/maintainability_agent/src/metrics/metricsHelper.ts:13-28 | High (penalty 0.15) iff more than 50 lines, Medium (0.08) iff 31 to 50, Low (0) otherwise; the value is the line count |
| MetricsHelper.Weight | modules/Multi_Agent/maintainability_agent/src/metrics/metricsHelper.ts:54-55 | an entry weighs 1, and 2 when it is a SwitchStatement or a CaseStatement |
| MetricsHelper.Depth | modules/Multi_Agent/maintainability_agent/src/metrics/metricsHelper.ts:48-59 | a non-empty tree has depth at least 1, and an else-if object is measured as a one-entry branch |
| MetricsHelper.NodeDepth | modules/Multi_Agent/maintainability_agent/src/metrics/metricsHelper.ts:52-56 | an entry reaches at least its own weight, on top of the deeper of its branches |
| MetricsHelper.DepthAppend | modules/Multi_Agent/maintainability_agent/src/metrics/metricsHelper.ts:51-57 | the depth of two lists of entries is the larger of their depths |
| MetricsHelper.DepthBounds | modules/Multi_Agent/maintainability_agent/src/metrics/metricsHelper.ts:48-59 | the depth lies between the tree's height and twice its height |
| MetricsHelper.NodeDepthBounds | modules/Multi_Agent/maintainability_agent/src/metrics/metricsHelper.ts:52-56 | the same for one entry |
| MetricsHelper.AsWrittenAgrees | modules/Multi_Agent/maintainability_agent/src/metrics/metricsHelper.ts:48-59 | on trees without an else-if object the code as written computes the same depth |
| MetricsHelper.NodeAgrees | modules/Multi_Agent/maintainability_agent/src/metrics/metricsHelper.ts:52-56 | the same for one entry |
| MetricsHelper.ElseIfThrows | modules/Multi_Agent/maintainability_agent/src/metrics/metricsHelper.ts:53 | the code as written fails on an if whose else is an else-if object, since the object is iterated as if it were an array |
| MetricsHelper.CheckNestingDepth | modules/Multi_Agent/maintainability_agent/src/metrics/metricsHelper.ts:31-46 | fails exactly when calculateDepth as written throws on an else-if object; otherwise High (0.15) iff the depth exceeds 3, Medium (0.08) iff it is 2 or 3, Low (0) otherwise, the value being the depth |
| MetricsHelper.CheckComplexity | modules/Multi_Agent/maintainability_agent/src/metrics/metricsHelper.ts:62-78 | the value is conditionals plus loops; High (0.15) iff above 10, Medium (0.08) iff 6 to 10, Low otherwise |
| MetricsHelper.CheckParameters | modules/Multi_Agent/maintainability_agent/src/metrics/metricsHelper.ts:81-96 | High (0.10) iff more than 5 parameters, Medium (0.05) iff 4 or 5, Low otherwise |
| MetricsHelper.Comments | modules/Multi_Agent/maintainability_agent/src/metrics/metricsHelper.ts:101 | a given real comment count wins, and the method's commentsCount is used when it is absent or 0 |
| MetricsHelper.CheckCommentRatio | modules/Multi_Agent/maintainability_agent/src/metrics/metricsHelper.ts:99-117 | with ratio = comments/total·100 (0 when total is 0): High (0.10) iff below 20, Medium (0.05) iff 20 up to 35, Low otherwise |
| MetricsHelper.CommentRatioMonotone | modules/Multi_Agent/maintainability_agent/src/metrics/metricsHelper.ts:102-108 | more comments never make the comment grade worse |
| MetricsHelper.Unclear | modules/Multi_Agent/maintainability_agent/src/metrics/metricsHelper.ts:121-125 | no longer than the parameter list, and a name occurs in it iff it is a parameter name that is a reserved single letter |
| MetricsHelper.UnclearAppend | modules/Multi_Agent/maintainability_agent/src/metrics/metricsHelper.ts:121-125 | the filter keeps the parameter order: the unclear names of a concatenation are those of each part, in order |
| MetricsHelper.UnclearSingle | modules/Multi_Agent/maintainability_agent/src/metrics/metricsHelper.ts:121-125 | a single name is kept exactly when it is a reserved single letter |
| MetricsHelper.UnclearCounts | modules/Multi_Agent/maintainability_agent/src/metrics/metricsHelper.ts:121-125 | each reserved letter is kept as many times as it occurs among the parameters, so repeats count towards the grade; no other name is kept |
| MetricsHelper.CheckNamingClarity | modules/Multi_Agent/maintainability_agent/src/metrics/metricsHelper.ts:120-143 | High (0.10) iff more than 2 unclear names, Medium (0.05) iff 1 or 2, Low otherwise; the value is "Good" iff no name is unclear |
| MetricsHelper.JoinHead | modules/Multi_Agent/maintainability_agent/src/metrics/metricsHelper.ts:135 | a non-empty join of reserved letters is never the text "Good" |
| MetricsHelper.ClearNamesIgnored | modules/Multi_Agent/maintainability_agent/src/metrics/metricsHelper.ts:121-131 | adding clear parameter names never changes the naming grade |
| MetricsHelper.UnclearAppendClear | modules/Multi_Agent/maintainability_agent/src/metrics/metricsHelper.ts:123-125 | clear names add nothing to the unclear list |
| MetricsHelper.EvaluateAllMetrics | modules/Multi_Agent/maintainability_agent/src/metrics/metricsHelper.ts:157-172 | fails exactly when the nesting check throws; otherwise six results in the fixed metric order, each Low exactly when its penalty is 0, none above 0.15 |
| ScoreHelper.LevelOf | modules/Multi_Agent/maintainability_agent/src/metrics/scoreHelper.ts:8-10 | below 60 Low, 60 up to 85 Medium, 85 and above High |
| ScoreHelper.ComputeMethodScore | modules/Multi_Agent/maintainability_agent/src/metrics/scoreHelper.ts:4-13 | the score is 100 minus the total penalty, floored at 0, and its level follows from it |
| ScoreHelper.NoPenaltyFullScore | modules/Multi_Agent/maintainability_agent/src/metrics/scoreHelper.ts:5-10 | no penalty gives 100, level High |
| ScoreHelper.NoPenaltyTotal | modules/Multi_Agent/maintainability_agent/src/metrics/scoreHelper.ts:5 | the total penalty is 0 when every penalty is 0 |
| ScoreHelper.MorePenaltyLowerScore | modules/Multi_Agent/maintainability_agent/src/metrics/scoreHelper.ts:5-10 | another metric never raises the score nor the level |
| ScoreHelper.SixMetricsBound | modules/Multi_Agent/maintainability_agent/src/metrics/scoreHelper.ts:5-6 | when evaluateAllMetrics returns, its six metrics cost at most 75, so a method scores at least 25 |
| ScoreHelper.ComputeAverageScore | modules/Multi_Agent/maintainability_agent/src/metrics/scoreHelper.ts:16-27 | no methods give 100, High; otherwise the mean of the scores, with the level of that mean |
| ScoreHelper.SumBetween | modules/Multi_Agent/maintainability_agent/src/metrics/scoreHelper.ts:20 | scores between lo and hi sum to between n·lo and n·hi |
| ScoreHelper.AverageBetween | modules/Multi_Agent/maintainability_agent/src/metrics/scoreHelper.ts:19-20 | the mean lies between the lowest and highest bound of the scores |
| ScoreHelper.AllFullAverage | modules/Multi_Agent/maintainability_agent/src/metrics/scoreHelper.ts:17-24 | methods all at 100 give a file at 100, level High |
| SuggestionHelper.SuggestionFor | modules/Multi_Agent/maintainability_agent/src/metrics/suggestionHelper.ts:7-29 | a metric draws advice exactly when it is one of the five graded High or Naming Clarity graded Medium, and the advice is never the all-clear line |
| SuggestionHelper.Collected | modules/Multi_Agent/maintainability_agent/src/metrics/suggestionHelper.ts:6-30 | at most one line per metric, in metric order, none of them the all-clear line |
| SuggestionHelper.SuggestionsOf | modules/Multi_Agent/maintainability_agent/src/metrics/suggestionHelper.ts:3-37 | never empty: the collected advice, or the all-clear line alone |
| SuggestionHelper.GenerateSuggestions | modules/Multi_Agent/maintainability_agent/src/metrics/suggestionHelper.ts:3-37 | the loop returns exactly that list |
| SuggestionHelper.CollectedAppend | modules/Multi_Agent/maintainability_agent/src/metrics/suggestionHelper.ts:6-30 | the advice for two runs of metrics is the advice for each, in order |
| SuggestionHelper.AllClear | modules/Multi_Agent/maintainability_agent/src/metrics/suggestionHelper.ts:32-34 | the all-clear line comes exactly when no metric calls for advice, and then alone |
| SuggestionHelper.NamingClarityOnMedium | modules/Multi_Agent/maintainability_agent/src/metrics/suggestionHelper.ts:27-29 | Naming Clarity draws advice when graded Medium and not when graded High |
| SuggestionHelper.AllLowAllClear | modules/Multi_Agent/maintainability_agent/src/metrics/suggestionHelper.ts:6-34 | a method whose six metrics are returned and all Low gets only the all-clear line |
| MetricsHelper.CheckNestingDepthIntended | modules/Multi_Agent/maintainability_agent/src/metrics/metricsHelper.ts:31-46 | the nesting check over the corrected depth, with an else-if object measured as a one-entry branch: High (0.15) iff the depth exceeds 3, Medium (0.08) iff it is 2 or 3, Low otherwise |
| MetricsHelper.NestingAgrees | modules/Multi_Agent/maintainability_agent/src/metrics/metricsHelper.ts:31-59 | on a tree without else-if objects the nesting check as written returns the corrected result |
| MetricsHelper.EvaluateAllMetricsIntended | modules/Multi_Agent/maintainability_agent/src/metrics/metricsHelper.ts:157-172 | with the corrected nesting check, six results in the fixed metric order, each Low exactly when its penalty is 0, none above 0.15 |
| MetricsHelper.EvaluateAgrees | modules/Multi_Agent/maintainability_agent/src/metrics/metricsHelper.ts:157-172 | on a tree without else-if objects evaluateAllMetrics as written returns the corrected six results |
| FileUtils.LocAndComments | modules/Multi_Agent/maintainability_agent/src/utils/fileUtils.ts:46-86 | a missing source file gives 0 code and 0 comment lines; otherwise the code and comment counts of the scan as written, which together never exceed the non-blank lines |
| FileUtils.CountLines | modules/Multi_Agent/maintainability_agent/src/utils/fileUtils.ts:59-85 | the loop, with the trailing-block-comment test placed as written, computes the as-written scan's counts, whose sum is at most the number of non-blank lines |
| FileUtils.GetRealLocAndComments | modules/Multi_Agent/maintainability_agent/src/utils/fileUtils.ts:46-86 | the counts of the as-written scan for the file's content, or zeros when it is missing |
| FileUtils.EveryLineOnce | modules/Multi_Agent/maintainability_agent/src/utils/fileUtils.ts:63-83 | every non-blank line is counted exactly once, as code or as a comment |
| FileUtils.AtMostOnceAsWritten | modules/Multi_Agent/maintainability_agent/src/utils/fileUtils.ts:63-83 | as written, every line is counted at most once |
| FileUtils.TrailingCommentLost | modules/Multi_Agent/maintainability_agent/src/utils/fileUtils.ts:70-73 | as written, the code line x = 1; /* note */ is counted neither as code nor as a comment; with the corrected step it is one code line |
| FileUtils.BlankIgnored | modules/Multi_Agent/maintainability_agent/src/utils/fileUtils.ts:64-65 | blank lines change nothing, in the scan as written and in the corrected scan |
| FileUtils.InBlockAgrees | modules/Multi_Agent/maintainability_agent/src/utils/fileUtils.ts:63-83 | the scan as written and the corrected scan always agree on whether a block comment is open |
| FileUtils.LineCommentAsWritten | modules/Multi_Agent/maintainability_agent/src/utils/fileUtils.ts:70-79 | as written, outside a block comment, a line starting with // counts as one comment line and nothing else, except that one ending in */ counts as nothing |
| FileUtils.LineComment | modules/Multi_Agent/maintainability_agent/src/utils/fileUtils.ts:76-79 | with the corrected scan, outside a block comment, a line starting with // counts as one comment line and nothing else |
| FileUtils.BlockComment | modules/Multi_Agent/maintainability_agent/src/utils/fileUtils.ts:68-73 | in the scan as written and in the corrected scan alike, from the line opening a block comment through the line closing it, every non-blank line counts as one comment line, and the comment stays open until a line ends with */ |
| FileUtils.LocAndCommentsIntended | modules/Multi_Agent/maintainability_agent/src/utils/fileUtils.ts:46-86 | with the end-of-block test applied only inside a block comment, the code and comment counts add up to exactly the non-blank lines |
| FileUtils.StepAgreesIff | modules/Multi_Agent/maintainability_agent/src/utils/fileUtils.ts:70-73 | the scan as written and the corrected scan treat a line alike exactly when it is not a code line outside a block comment that ends in */ without starting with /* |
| ComplianceAgent.GetNodeLine | modules/Multi_Agent/compliance/src/compliance_agent.ts:32-39 | line if present, else startLine, else position.line, else 0 |
| ComplianceAgent.Lines | modules/Multi_Agent/compliance/src/compliance_agent.ts:112 | code.split(/\r?\n/): at least one line, none holding a line break |
| ComplianceAgent.LinesInCode | modules/Multi_Agent/compliance/src/compliance_agent.ts:112 | every line is a piece of the code |
| ComplianceAgent.FirstLineFrom | modules/Multi_Agent/compliance/src/compliance_agent.ts:44-47 | the 1-based number of the first line from i on holding the name as a whole word, 0 when none does |
| ComplianceAgent.FindLineByName | modules/Multi_Agent/compliance/src/compliance_agent.ts:42-48 | findLineByName returns the first line holding the name as a whole word, 0 when none does |
| ComplianceAgent.LineOf | modules/Multi_Agent/compliance/src/compliance_agent.ts:126-127 | a node's own line when non-zero, otherwise the first line naming it, or 0 |
| ComplianceAgent.NodeLine | modules/Multi_Agent/compliance/src/compliance_agent.ts:182-183 | the line-number lookup computes that line |
| ComplianceAgent.ThirdHeuristicRedundant | modules/Multi_Agent/compliance/src/compliance_agent.ts:51-79 | a field is taken for a constant iff its name is UPPER_SNAKE, or its line holds static final or final static in any case, or its name starts with a common constant prefix; the third heuristic never decides |
| ComplianceAgent.ClassifyAccessor | modules/Multi_Agent/compliance/src/compliance_agent.ts:82-98 | a getter iff get plus more, else a setter iff set plus more, else a boolean getter iff is, has or can plus more |
| ComplianceAgent.AccessorBaseNonEmpty | modules/Multi_Agent/compliance/src/compliance_agent.ts:191-193 | an accessor's name always has a character after its prefix |
| ComplianceAgent.FunctionCheck | modules/Multi_Agent/compliance/src/compliance_agent.ts:120-142 | at most a naming issue for a top-level function, with its suggestion |
| ComplianceAgent.FunctionsCheck | modules/Multi_Agent/compliance/src/compliance_agent.ts:117-143 | issues and suggestions pair up over the top-level functions, all of them naming issues |
| ComplianceAgent.ClassNameCheck | modules/Multi_Agent/compliance/src/compliance_agent.ts:158-174 | at most a naming issue for a class name, with its suggestion |
| ComplianceAgent.MethodCheck | modules/Multi_Agent/compliance/src/compliance_agent.ts:178-241 | at most a naming issue for a method, with its suggestion |
| ComplianceAgent.MethodsCheck | modules/Multi_Agent/compliance/src/compliance_agent.ts:177-242 | issues and suggestions pair up over the methods |
| ComplianceAgent.FieldCheck | modules/Multi_Agent/compliance/src/compliance_agent.ts:246-290 | at most a naming issue for a field, or the failure of reading a missing line |
| ComplianceAgent.FieldsCheck | modules/Multi_Agent/compliance/src/compliance_agent.ts:245-291 | issues and suggestions pair up over the fields unless a field fails |
| ComplianceAgent.ClassCheck | modules/Multi_Agent/compliance/src/compliance_agent.ts:154-292 | the class name, then its methods, then its fields |
| ComplianceAgent.ClassesCheck | modules/Multi_Agent/compliance/src/compliance_agent.ts:148-293 | issues and suggestions pair up over the classes unless one fails |
| ComplianceAgent.FieldsErrSticks | modules/Multi_Agent/compliance/src/compliance_agent.ts:246-257 | a failure in one field ends the analysis with that failure |
| ComplianceAgent.ClassesErrSticks | modules/Multi_Agent/compliance/src/compliance_agent.ts:154-292 | the same over the classes |
| ComplianceAgent.RunEnd | modules/Multi_Agent/compliance/src/compliance_agent.ts:358 | the end of the longest run of word or dot characters (or of white space) from a position |
| ComplianceAgent.RunEndLongest | modules/Multi_Agent/compliance/src/compliance_agent.ts:358 | no run from that position reaches further |
| ComplianceAgent.CaptureAt | modules/Multi_Agent/compliance/src/compliance_agent.ts:358 | the capture taken at one position is a non-empty piece of the line |
| ComplianceAgent.CaptureFrom | modules/Multi_Agent/compliance/src/compliance_agent.ts:358 | the capture of the leftmost match at or after a position, none iff nothing matches there |
| ComplianceAgent.Capture | modules/Multi_Agent/compliance/src/compliance_agent.ts:358 | the group the regular expression keyword\s+([\w.]+) captures is a non-empty piece of the line |
| ComplianceAgent.CaptureAtIff | modules/Multi_Agent/compliance/src/compliance_agent.ts:358 | a capture is taken at a position exactly when the regular expression matches there |
| ComplianceAgent.CaptureMatches | modules/Multi_Agent/compliance/src/compliance_agent.ts:358 | a capture comes from a match |
| ComplianceAgent.MatchCaptures | modules/Multi_Agent/compliance/src/compliance_agent.ts:358 | a match yields a capture |
| ComplianceAgent.MatchRuns | modules/Multi_Agent/compliance/src/compliance_agent.ts:358 | a match of the import pattern at i is the keyword, then at least one space, then at least one word character or dot |
| ComplianceAgent.RunEndStops | modules/Multi_Agent/compliance/src/compliance_agent.ts:358 | a run ending before a character outside the class is the longest |
| ComplianceAgent.CaptureIff | modules/Multi_Agent/compliance/src/compliance_agent.ts:358-359 | the capture is taken exactly when the regular expression matches the line |
| ComplianceAgent.LastSegment | modules/Multi_Agent/compliance/src/compliance_agent.ts:362 | the simple name of an import is a piece of it without a dot |
| ComplianceAgent.RuleCheck | modules/Multi_Agent/compliance/src/compliance_agent.ts:303-322 | one formatting rule on a line: an issue, and a suggestion only for trailing spaces and tabs |
| ComplianceAgent.RulesCheck | modules/Multi_Agent/compliance/src/compliance_agent.ts:302-323 | the formatting rules in order |
| ComplianceAgent.LongLineCheck | modules/Multi_Agent/compliance/src/compliance_agent.ts:326-339 | the separate long-line check: an issue and a suggestion |
| ComplianceAgent.DeadCodeCheck | modules/Multi_Agent/compliance/src/compliance_agent.ts:342-354 | a line with // followed by ;, { or } is reported as dead code, with a suggestion |
| ComplianceAgent.ImportCheckAsWritten | modules/Multi_Agent/compliance/src/compliance_agent.ts:357-377 | the import check as written, searching the whole code for the simple name |
| ComplianceAgent.ImportCheck | modules/Multi_Agent/compliance/src/compliance_agent.ts:357-377 | the import check searching every line but the import itself |
| ComplianceAgent.PackageCheck | modules/Multi_Agent/compliance/src/compliance_agent.ts:380-399 | the package check: an issue and a suggestion for a non-lowercase package name |
| ComplianceAgent.LineCheck | modules/Multi_Agent/compliance/src/compliance_agent.ts:298-400 | everything checked on one line, in the source's order, with the import check as written; there are never more suggestions than issues |
| ComplianceAgent.LinesCheck | modules/Multi_Agent/compliance/src/compliance_agent.ts:298-400 | the line checks of the first n lines, in order; never more suggestions than issues |
| ComplianceAgent.SeveritiesAddUp | modules/Multi_Agent/compliance/src/compliance_agent.ts:411-415 | every issue has one of the three severities |
| ComplianceAgent.TypesAddUp | modules/Multi_Agent/compliance/src/compliance_agent.ts:416-421 | every issue has one of the four types |
| ComplianceAgent.Summarize | modules/Multi_Agent/compliance/src/compliance_agent.ts:409-422 | totalIssues is the number of issues, and both the severity and the type counts add up to it |
| ComplianceAgent.AstCheck | modules/Multi_Agent/compliance/src/compliance_agent.ts:117-293 | the top-level functions, then the classes |
| ComplianceAgent.AnalyzeOf | modules/Multi_Agent/compliance/src/compliance_agent.ts:108-424 | when analyze returns, with the import check as written, there are no more suggestions than issues, and totalIssues is the number of issues |
| ComplianceAgent.CheckFunction | modules/Multi_Agent/compliance/src/compliance_agent.ts:120-142 | the forEach body computes the function's findings |
| ComplianceAgent.CheckMethod | modules/Multi_Agent/compliance/src/compliance_agent.ts:178-241 | the forEach body computes the method's findings |
| ComplianceAgent.CheckField | modules/Multi_Agent/compliance/src/compliance_agent.ts:246-290 | the forEach body computes the field's findings or failure |
| ComplianceAgent.CheckMethods | modules/Multi_Agent/compliance/src/compliance_agent.ts:177-242 | the loop computes the findings of every method in order |
| ComplianceAgent.CheckFields | modules/Multi_Agent/compliance/src/compliance_agent.ts:245-291 | the loop computes the findings of every field in order, up to the first failure |
| ComplianceAgent.CheckClass | modules/Multi_Agent/compliance/src/compliance_agent.ts:154-292 | the class body computes the class's findings |
| ComplianceAgent.CheckFunctions | modules/Multi_Agent/compliance/src/compliance_agent.ts:117-143 | the loop computes the findings of every function in order |
| ComplianceAgent.CheckClasses | modules/Multi_Agent/compliance/src/compliance_agent.ts:148-293 | the loop computes the findings of every class in order, up to the first failure |
| ComplianceAgent.CheckLine | modules/Multi_Agent/compliance/src/compliance_agent.ts:298-400 | the line loop body, with its inner rule loop, computes exactly the line's findings |
| ComplianceAgent.CheckLines | modules/Multi_Agent/compliance/src/compliance_agent.ts:298-400 | the line loop computes the findings of every line in order |
| ComplianceAgent.Analyze | modules/Multi_Agent/compliance/src/compliance_agent.ts:108-424 | the method returns what analyze returns, or its failure |
| ComplianceAgent.FunctionFlaggedIff | modules/Multi_Agent/compliance/src/compliance_agent.ts:120-142 | a named top-level function is reported, once, with severity medium and a camelCase suggestion, exactly when its name is not camelCase |
| ComplianceAgent.ClassNameFlaggedIff | modules/Multi_Agent/compliance/src/compliance_agent.ts:158-174 | a class is reported, once and with severity high, exactly when its name is not PascalCase |
| ComplianceAgent.MethodFlaggedIff | modules/Multi_Agent/compliance/src/compliance_agent.ts:178-241 | an accessor is reported exactly when the character after its prefix is not uppercase, any other method exactly when its name is not camelCase; once, severity medium, with a suggestion |
| ComplianceAgent.AccessorEscapesCamelCase | modules/Multi_Agent/compliance/src/compliance_agent.ts:189-224 | the accessor getX_y is not camelCase yet is never reported |
| ComplianceAgent.FieldFlaggedIff | modules/Multi_Agent/compliance/src/compliance_agent.ts:246-290 | a field is reported exactly when it is taken for a constant and is not UPPER_SNAKE, or is not taken for one and is not camelCase |
| ComplianceAgent.UpperSnakeFieldAccepted | modules/Multi_Agent/compliance/src/compliance_agent.ts:257-272 | an UPPER_SNAKE field is never reported |
| ComplianceAgent.FieldPastLastLine | modules/Multi_Agent/compliance/src/compliance_agent.ts:254 | a field whose line lies past the last line makes analyze fail, since the missing line text is lower-cased |
| ComplianceAgent.FormattingRulesMeaning | modules/Multi_Agent/compliance/src/compliance_agent.ts:302-323 | one issue per formatting rule that fires, the length rule included; suggestions only for trailing spaces and tabs |
| ComplianceAgent.RulesInOrder | modules/Multi_Agent/compliance/src/compliance_agent.ts:302 | the rule loop runs trailing spaces, tabs, then length |
| ComplianceAgent.LongLineReportedTwice | modules/Multi_Agent/compliance/src/compliance_agent.ts:302-339 | a long line is reported twice with the same issue, once in the rule loop and once on its own |
| ComplianceAgent.EmptyLineClean | modules/Multi_Agent/compliance/src/compliance_agent.ts:298-400 | an empty line is never reported |
| ComplianceAgent.UnusedImportNeverReported | modules/Multi_Agent/compliance/src/compliance_agent.ts:357-377 | as written, an import is never reported, because its own line is part of the code |
| ComplianceAgent.UnusedImportReported | modules/Multi_Agent/compliance/src/compliance_agent.ts:357-377 | with the import line left out of the search, an import whose simple name is on no other line is reported, with its name and a suggestion |
| ComplianceAgent.PackageFlaggedIff | modules/Multi_Agent/compliance/src/compliance_agent.ts:380-399 | a package line is reported exactly when the package name holds an uppercase letter |
| ComplianceAgent.LineReportsNoImport | modules/Multi_Agent/compliance/src/compliance_agent.ts:298-400 | a line whose import check finds nothing yields no import issue, since no other check on it is an import issue |
| ComplianceAgent.RulesReportNoImport | modules/Multi_Agent/compliance/src/compliance_agent.ts:302-324 | the formatting-rule loop never reports an import issue |
| ComplianceAgent.LinesReportNoImport | modules/Multi_Agent/compliance/src/compliance_agent.ts:298-400 | lines whose import checks find nothing yield no import issue |
| ComplianceAgent.PlusNoImport | modules/Multi_Agent/compliance/src/compliance_agent.ts:298-400 | joining findings without import issues gives none |
| ComplianceAgent.CountTypeAppend | modules/Multi_Agent/compliance/src/compliance_agent.ts:420 | the count of issues of a type over two runs of issues is the sum of the counts |
| ComplianceAgent.NamingNotImport | modules/Multi_Agent/compliance/src/compliance_agent.ts:108-296 | the naming checks on the tree report no import issue |
| ComplianceAgent.AnalyzeReportsNoImport | modules/Multi_Agent/compliance/src/compliance_agent.ts:357-420 | as written, a successful analyze always reports 0 import issues in its summary, whatever the code |
| ComplianceRules.HeadTailMatch | modules/Multi_Agent/compliance/dist/rules.js:11 | an anchored pattern of one head character and any number of tail characters matches exactly such a string |
| ComplianceRules.CamelCaseIff | modules/Multi_Agent/compliance/dist/rules.js:11 | the camelCase pattern matches exactly a lowercase letter followed by letters and digits |
| ComplianceRules.PascalCaseIff | modules/Multi_Agent/compliance/dist/rules.js:25 | the PascalCase pattern matches exactly an uppercase letter followed by letters and digits |
| ComplianceRules.UpperSnakeCaseIff | modules/Multi_Agent/compliance/dist/rules.js:32 | the UPPER_SNAKE_CASE pattern matches exactly an uppercase letter followed by uppercase letters, digits and underscores |
| ComplianceRules.TrailingSpacesIff | modules/Multi_Agent/compliance/dist/rules.js:47 | the trailing-space rule fires exactly on lines ending in white space |
| ComplianceRules.TabIff | modules/Multi_Agent/compliance/dist/rules.js:53 | the tab rule fires exactly on lines holding a tab |
| ComplianceRules.LongLineIff | modules/Multi_Agent/compliance/dist/rules.js:59 | the length rule fires exactly on lines of at least 121 characters none of which is a line terminator |
| ComplianceRules.LongLineByLength | modules/Multi_Agent/compliance/dist/rules.js:59 | on a line without line terminators, the length rule fires exactly when it has more than 120 characters |
| ComplianceRules.CodeCharEnds | modules/Multi_Agent/compliance/dist/rules.js:79 | the closing alternative matches one semicolon or brace |
| ComplianceRules.DeadCodeIff | modules/Multi_Agent/compliance/dist/rules.js:79 | the commented-out-code pattern matches exactly when a semicolon or brace follows a // with no line terminator in between |
| ComplianceRules.DeadCodeFound | modules/Multi_Agent/compliance/dist/rules.js:79 | such a line matches the pattern |
| ComplianceRules.DeadCodeShown | modules/Multi_Agent/compliance/dist/rules.js:79 | a match shows such a line |
| OptimizationAgent.MessageText | modules/Multi_Agent/optimization/src/optimizationAgent.ts:63 | every finding's message opens with Method '<class>.<method> |
| OptimizationAgent.RuleFinding | modules/Multi_Agent/optimization/src/optimizationAgent.ts:62-67 | one rule adds nothing, or one finding located at the analysed file |
| OptimizationAgent.MethodFindings | modules/Multi_Agent/optimization/src/optimizationAgent.ts:61-68 | the rules on one method give at most one finding each |
| OptimizationAgent.ResultsOf | modules/Multi_Agent/optimization/src/optimizationAgent.ts:50-73 | a file without classes gives no findings |
| OptimizationAgent.Agent.constructor | modules/Multi_Agent/optimization/src/optimizationAgent.ts:35-43 | the five rules, in the order they run |
| OptimizationAgent.Agent.AnalyzeJavaAst | modules/Multi_Agent/optimization/src/optimizationAgent.ts:50-73 | the loops return the findings of every rule on every method of every class, in that order |
| OptimizationAgent.Agent.AnalyzeClass | modules/Multi_Agent/optimization/src/optimizationAgent.ts:54-69 | the loop over one class's methods |
| OptimizationAgent.Agent.RunRules | modules/Multi_Agent/optimization/src/optimizationAgent.ts:61-68 | the loop over the rules on one method |
| OptimizationAgent.ResultCountBound | modules/Multi_Agent/optimization/src/optimizationAgent.ts:50-73 | at most one finding per rule and method |
| OptimizationAgent.ClassFindingsBound | modules/Multi_Agent/optimization/src/optimizationAgent.ts:54-69 | the same bound for one class |
| OptimizationAgent.FileFindingsBound | modules/Multi_Agent/optimization/src/optimizationAgent.ts:53-70 | the same bound for the first classes of a file |
| OptimizationAgent.AtMostThreePerMethod | modules/Multi_Agent/optimization/src/optimizationAgent.ts:36-42 | with the agent's five rules a method draws at most three findings, since two rules never apply |
| OptimizationAgent.NoLoopsNoFindings | modules/Multi_Agent/optimization/src/optimizationAgent.ts:61-68 | a method without loops draws no finding |
| OptimizationAgent.LoopingMethod | modules/Multi_Agent/optimization/src/optimizationAgent.ts:61-68 | a method with loops draws the loop-optimization finding, then the algorithm-choice finding, then a memoization finding exactly when that rule applies |
| OptimizationAgent.ClassesInOrder | modules/Multi_Agent/optimization/src/optimizationAgent.ts:53-70 | analysing the classes of a and then those of b is analysing a + b |
| OptimizationAgent.ClassesSplit | modules/Multi_Agent/optimization/src/optimizationAgent.ts:53-70 | the findings on a list of classes followed by a prefix of another are those of the first list, then those of the prefix |
| OptimizationAgent.FileFindingsPrefix | modules/Multi_Agent/optimization/src/optimizationAgent.ts:53-70 | the findings on a prefix of the classes depend only on that prefix |
| LoopOptimizationRule.Analyze | modules/Multi_Agent/optimization/rules/loop-optimization.rule.js:14-44 | nothing iff the method has no loops; otherwise one finding at the file, high for 3 or more loops, medium for 2, low for 1 |
| LoopOptimizationRule.AppliesReports | modules/Multi_Agent/optimization/rules/loop-optimization.rule.js:10-13 | whenever the rule applies it reports |
| LoopOptimizationRule.MoreLoopsNoLower | modules/Multi_Agent/optimization/rules/loop-optimization.rule.js:23-35 | another loop never lowers the severity |
| AlgorithmChoiceRule.Analyze | modules/Multi_Agent/optimization/rules/algorithm-choice.rule.ts:17-57 | nothing iff the method has no loops; otherwise one finding at the file, high for 3 or more loops, medium for 2, low for 1 |
| AlgorithmChoiceRule.AppliesReports | modules/Multi_Agent/optimization/rules/algorithm-choice.rule.ts:12-15 | whenever the rule applies it reports |
| MemoizationRule.Analyze | modules/Multi_Agent/optimization/rules/memoization.rule.ts:32-54 | nothing iff the method has no loops; otherwise high for 2 or more loops and medium for one, never low |
| MemoizationRule.KeywordInName | modules/Multi_Agent/optimization/rules/memoization.rule.ts:12-30 | the rule applies to a method whose lower-cased name holds compute, calculate, hash, fib, factorial, cost or score |
| MemoizationRule.AppliesWithoutLoops | modules/Multi_Agent/optimization/rules/memoization.rule.ts:38-40 | a method the rule applies to but without loops draws nothing |
| OptimizationTypes.Headed | modules/Multi_Agent/optimization/rules/algorithm-choice.rule.ts:33-45 | every rule message opens with Method 'Class.method and continues with the rule's own text |
| RuleEngine.GetRuleFirst | modules/static-analyzer/dist/rules/RuleEngine.js:143-147 | the first category defining a rule id decides its rule |
| RuleEngine.GetRuleUnknown | modules/static-analyzer/dist/rules/RuleEngine.js:148 | a rule id no category defines gets the unknown rule, of severity low |
| RuleEngine.LineText | modules/static-analyzer/dist/rules/RuleEngine.js:140 | the line shown is "?" exactly when neither position.line nor line is a truthy line |
| RuleEngine.NodeLocation | modules/static-analyzer/dist/rules/RuleEngine.js:137-142 | the location starts with the file name, followed by " > name" exactly when the node has a name, and by ":line" otherwise |
| RuleEngine.NamedLocation | modules/static-analyzer/dist/rules/RuleEngine.js:138-139 | a named node is located by its name, whatever lines it carries |
| RuleEngine.UnplacedLocation | modules/static-analyzer/dist/rules/RuleEngine.js:140-141 | an unnamed node without a line is located at line "?" |
| RuleEngine.CreateViolation | modules/static-analyzer/dist/rules/RuleEngine.js:127-136 | the violation keeps the rule id and message, takes its severity from the rule, and is located at the node or else at the file |
| RuleEngine.RenderNonEmpty | modules/static-analyzer/dist/rules/RuleEngine.js:132 | message or rule.desc always picks the message, since no message is empty |
| RuleEngine.Description | modules/static-analyzer/dist/rules/RuleEngine.js:132 | a violation's description is never empty |
| RuleEngine.CountRule | modules/static-analyzer/dist/rules/RuleEngine.js:106-126 | the number of violations with a rule id is at most the number of violations |
| RuleEngine.NoRuleCount | modules/static-analyzer/dist/rules/RuleEngine.js:106-126 | a rule id that no violation has counts 0 |
| RuleEngine.CountRuleAppend | modules/static-analyzer/dist/rules/RuleEngine.js:108 | counts add up over pushes |
| RuleEngine.HasDefaultIff | modules/static-analyzer/dist/rules/RuleEngine.js:83-94 | hasDefaultInTree is true exactly when some entry reached through array branches is a default case |
| RuleEngine.NodeHasDefaultIff | modules/static-analyzer/dist/rules/RuleEngine.js:87-92 | the same for one entry and what lies below it |
| RuleEngine.ParserTreeHasNoDefault | modules/static-analyzer/dist/rules/RuleEngine.js:83-94 | the parser's trees hold only IfStatement and Statement entries, so the search never finds a default case in them |
| RuleEngine.ParserNodeHasNoDefault | modules/static-analyzer/dist/rules/RuleEngine.js:87-92 | the same for one parser entry |
| RuleEngine.CheckStyleIssues | modules/static-analyzer/dist/rules/RuleEngine.js:69-82 | results gain one QA003 per method whose conditionals include switch and whose tree has no default, in method order, and nothing without methods |
| RuleEngine.SwitchCount | modules/static-analyzer/dist/rules/RuleEngine.js:74 | at most one switch-bearing method per method |
| RuleEngine.StyleViolationsAreQA003 | modules/static-analyzer/dist/rules/RuleEngine.js:73-80 | every style violation is a QA003, at most one per method with a switch |
| RuleEngine.ParserSwitchesAllReported | modules/static-analyzer/dist/rules/RuleEngine.js:74-78 | on the parser's trees, every method with a switch is reported |
| RuleEngine.ComplexityViolation | modules/static-analyzer/dist/rules/RuleEngine.js:115-117 | one QA006 exactly when the cyclomatic complexity exceeds 10 |
| RuleEngine.SizeViolation | modules/static-analyzer/dist/rules/RuleEngine.js:118-120 | one QA007 exactly when the function size exceeds 50 |
| RuleEngine.NestingViolation | modules/static-analyzer/dist/rules/RuleEngine.js:121-123 | one QA008 exactly when the nesting depth exceeds 4 |
| RuleEngine.MethodViolations | modules/static-analyzer/dist/rules/RuleEngine.js:113-123 | a method adds only QA006, QA007 and QA008 violations |
| RuleEngine.ClassViolations | modules/static-analyzer/dist/rules/RuleEngine.js:112-124 | the same for the methods of a class |
| RuleEngine.ClassesViolations | modules/static-analyzer/dist/rules/RuleEngine.js:110-125 | the same for all classes |
| RuleEngine.CheckMethodMetrics | modules/static-analyzer/dist/rules/RuleEngine.js:113-123 | the method body pushes that method's violations after the results so far |
| RuleEngine.AnalyzeClass | modules/static-analyzer/dist/rules/RuleEngine.js:112-124 | the inner loop pushes the violations of every method of the class, in order |
| RuleEngine.AnalyzeClasses | modules/static-analyzer/dist/rules/RuleEngine.js:110-125 | the outer loop pushes the violations of every class, in order |
| RuleEngine.AnalyzeMetrics | modules/static-analyzer/dist/rules/RuleEngine.js:106-126 | results gain a QA004 when there is more than one class, then the threshold violations of every method of every class, in order |
| RuleEngine.MethodThresholds | modules/static-analyzer/dist/rules/RuleEngine.js:113-123 | a method draws QA006 exactly when its complexity exceeds 10, QA007 exactly when its size exceeds 50 and QA008 exactly when its nesting exceeds 4, each at most once and nothing else |
| RuleEngine.MetricsViolationsShape | modules/static-analyzer/dist/rules/RuleEngine.js:107-109 | more than one class yields exactly one QA004, placed first, and otherwise none |
| ReportGenerator.OfSeverity | modules/static-analyzer/src/report/ReportGenerator.ts:6-10 | exactly the violations of one severity, in input order |
| ReportGenerator.GroupBuckets | modules/static-analyzer/src/report/ReportGenerator.ts:6-10 | a bucket exists exactly for the severities that occur, and holds the violations of that severity in input order |
| ReportGenerator.Generate | modules/static-analyzer/src/report/ReportGenerator.ts:5-21 | the details are the violations unchanged and the total is their number |
| ReportGenerator.BucketSizeCounts | modules/static-analyzer/src/report/ReportGenerator.ts:14-17 | each summary count is the number of violations of that severity, 0 when none |
| ReportGenerator.FourSeverities | modules/static-analyzer/src/report/ReportGenerator.ts:13-17 | the four counts never add up to more than the total |
| ReportGenerator.FourSeveritiesCover | modules/static-analyzer/src/report/ReportGenerator.ts:13-17 | they add up to the total when every violation has one of the four severities |
| ReportGenerator.FourSeveritiesMiss | modules/static-analyzer/src/report/ReportGenerator.ts:13-17 | one violation of another severity keeps the four counts below the total |
| ReportGenerator.FourSeveritiesOnly | modules/static-analyzer/src/report/ReportGenerator.ts:13-17 | they add up to the total only when every violation has one of the four severities |
| ReportGenerator.SummaryCounts | modules/static-analyzer/src/report/ReportGenerator.ts:11-18 | the summary counts the critical, high, medium and low violations, whose sum is at most the total and equals it exactly when no other severity occurs |
| OptimizationService.QuoteFree | modules/gateway/services/optimizationService.js:13 | the run of non-quote characters from a position, stopping at the next quote |
| OptimizationService.FirstMethodAt | modules/gateway/services/optimizationService.js:13 | the leftmost match of Method '([^']+)' at or after a position, none iff there is no match there |
| OptimizationService.Captured | modules/gateway/services/optimizationService.js:13 | the group captured by a match is non-empty and holds no quote |
| OptimizationService.ExtractMethodName | modules/gateway/services/optimizationService.js:12-15 | the group of the leftmost match, or Unknown Method when the message has none |
| OptimizationService.MethodNameRoundTrip | modules/gateway/services/optimizationService.js:12-15 | a message starting with Method ' + name + ' gives back name, for any quote-free non-empty name |
| OptimizationService.MethodNameOfRuleMessage | modules/gateway/services/optimizationService.js:12-15 | on every message the optimization rules write, the extracted name is Class.method |
| OptimizationService.ExtractIssueType | modules/gateway/services/optimizationService.js:18-23 | NestedLoops iff the message mentions Nested loops; else LoopOptimization iff it mentions contains a loop; else LinearScan iff it mentions linear scan; else GeneralOptimization |
| OptimizationService.AdviceMatchesIssue | modules/gateway/services/optimizationService.js:26-34 | the nesting advice comes exactly for nested-loop issues, hash lookups for every linear scan, the general review for every general issue, and a loop issue gets hash lookups exactly when it also mentions a linear scan |
| OptimizationService.ComplexityMatchesIssue | modules/gateway/services/optimizationService.js:207-208 | a finding gets the nested complexities exactly when it is a nested-loop issue with the nesting advice |
| OptimizationService.ProcessAll | modules/gateway/services/optimizationService.js:183-210 | one processed finding per raw finding, in order |
| OptimizationService.MethodNames | modules/gateway/services/optimizationService.js:184 | one extracted method name per finding |
| OptimizationService.IssueTypes | modules/gateway/services/optimizationService.js:185 | one issue type per finding |
| OptimizationService.SeverityCount | modules/gateway/services/optimizationService.js:214 | the number of findings of one severity is at most the number of findings |
| OptimizationService.TruthyCount | modules/gateway/services/optimizationService.js:194 | the number of findings with a severity is at most the number of findings |
| OptimizationService.BreakdownCounts | modules/gateway/services/optimizationService.js:170 | each severity's count is its initial 0 (for high, medium and low) plus the number of findings of that severity |
| OptimizationService.BreakdownTotal | modules/gateway/services/optimizationService.js:194-197 | the breakdown adds up to the number of findings with a severity |
| OptimizationService.BreakdownKeys | modules/gateway/services/optimizationService.js:170 | the breakdown always lists high, medium and low first |
| OptimizationService.OfType | modules/gateway/services/optimizationService.js:231-232 | the number of processed findings of one issue type is at most the number of findings |
| OptimizationService.HighCount | modules/gateway/services/optimizationService.js:214 | the number of processed findings of severity high is at most the number of findings |
| OptimizationService.ImpactMonotone | modules/gateway/services/optimizationService.js:222-228 | more issues never lower the performance impact, and the thresholds are 6 and 11 issues |
| OptimizationService.EnergySavings | modules/gateway/services/optimizationService.js:233 | at most 95, 0 exactly when there is neither a nested loop nor a linear scan, and 95 when there are both |
| OptimizationService.ScanStep | modules/gateway/services/optimizationService.js:183-210 | each finding adds its processed form, its method name when new, one to its issue type and one to its severity when it has one |
| OptimizationService.ScanResults | modules/gateway/services/optimizationService.js:180-210 | the map callback's results are the processed findings, the distinct method names in order, the issue-type tally and the severity breakdown |
| OptimizationService.ProcessOptimizationAnalysis | modules/gateway/services/optimizationService.js:161-240 | the method returns the analysis: defaults for missing file name, agent and source path, and the summary of the findings when there are any |
| OptimizationService.SummaryCounts | modules/gateway/services/optimizationService.js:213-214 | one issue per finding, and the critical issues are the high ones |
| OptimizationService.MethodsAffected | modules/gateway/services/optimizationService.js:180 | no more methods than findings, at least one when there is a finding, and exactly the names the findings give |
| OptimizationService.HighIsSeverity | modules/gateway/services/optimizationService.js:214 | the processed high count is the raw high count |
| OptimizationService.MostCommonIsMax | modules/gateway/services/optimizationService.js:218-219 | None without findings; otherwise the name of the issue type of the first tally entry of greatest count, an issue type occurring at least as often as any other |
| ComplianceService.ProcessIssue | modules/gateway/services/complianceService.js:126-150 | every processed issue carries a non-empty recommendation, the source's fallback text when the raw issue has none |
| ComplianceService.ProcessedClassified | modules/gateway/services/complianceService.js:128-137 | a processed issue is medium/naming, low/style or medium/other, and it is style exactly when its type mentions Formatting and not Naming |
| ComplianceService.ProcessIssues | modules/gateway/services/complianceService.js:126-150 | one processed issue per raw issue, in the same order |
| ComplianceService.ProcessSuggestions | modules/gateway/services/complianceService.js:156-162 | one dashboard suggestion per raw suggestion |
| ComplianceService.LevelCount | modules/gateway/services/complianceService.js:165-170 | a severity count never exceeds the number of issues |
| ComplianceService.CategoryCount | modules/gateway/services/complianceService.js:173-180 | a category count never exceeds the number of issues |
| ComplianceService.Score | modules/gateway/services/complianceService.js:193-198 | the score lies between 0 and 100 and is 100 exactly when the weight is zero |
| ComplianceService.ScoreMonotone | modules/gateway/services/complianceService.js:193-198 | a greater weight never gives a greater score |
| ComplianceService.Recommendations | modules/gateway/services/complianceService.js:183-189 | the non-empty recommendations number at most the issues |
| ComplianceService.EveryRecommendation | modules/gateway/services/complianceService.js:183-189 | when every issue has a recommendation, all of them are kept, in order |
| ComplianceService.RecommendationsCover | modules/gateway/services/complianceService.js:183-189 | the distinct recommendations are exactly the recommendations of the issues |
| ComplianceService.CollectRecommendations | modules/gateway/services/complianceService.js:183-189 | the loop adding each recommendation to a set yields the distinct recommendations in first-occurrence order |
| ComplianceService.ProcessComplianceAnalysis | modules/gateway/services/complianceService.js:110-204 | the analysis built for one file equals the specification function of the raw agent output |
| ComplianceService.LevelSplit | modules/gateway/services/complianceService.js:165-170 | over classified issues there are no critical or high ones; medium counts naming plus other, low counts style |
| ComplianceService.CategorySplit | modules/gateway/services/complianceService.js:173-180 | over classified issues the documentation, security and performance counts are zero and naming, style and other add up to the total |
| ComplianceService.AllClassified | modules/gateway/services/complianceService.js:126-150 | every processed issue is classified |
| ComplianceService.AnalysisCounts | modules/gateway/services/complianceService.js:152-198 | the total is the number of issues, medium plus low severities and naming plus style plus other categories each add up to it, the other counts are zero, and the score is 100 exactly when there are no issues |
| ComplianceService.AnalysisRecommendations | modules/gateway/services/complianceService.js:183-189 | the recommendations hold no duplicate, include each issue's recommendation and nothing else |
| ComplianceService.Aggregated | modules/gateway/services/complianceService.js:325-359 | the aggregated metrics count every file |
| ComplianceService.BreakdownSums | modules/gateway/services/complianceService.js:329-335 | each severity in the breakdown is its initial zero plus the sum of that severity over the files |
| ComplianceService.CriticalAgrees | modules/gateway/services/complianceService.js:327-335 | the total of critical issues equals the critical entry of the severity breakdown |
| ComplianceService.CriticalIsSum | modules/gateway/services/complianceService.js:327 | the total of critical issues is the sum of the files' critical counts |
| ComplianceService.BreakdownKeys | modules/gateway/services/complianceService.js:335 | the breakdown always lists critical, high, medium and low first, in that order |
| ComplianceService.MergeKeepsPrefix | modules/gateway/services/complianceService.js:331-333 | merging counts into an object keeps its existing keys in place and only appends new ones |
| ComplianceService.StoredCritical | modules/gateway/services/complianceService.js:327 | a stored analysis contributes as many critical issues as its severity summary holds |
| ComplianceService.StoredNoCritical | modules/gateway/services/complianceService.js:165-170 | an analysis produced by this service stores zero critical issues |
| ComplianceService.NoCriticalTotal | modules/gateway/services/complianceService.js:327 | when no file has critical issues the total is zero |
| ComplianceService.MostCommonIsMax | modules/gateway/services/complianceService.js:344 | None for an empty tally; otherwise the key of the first entry of greatest count (the head of the stable descending sort), or None when that key is empty |
| ComplianceService.TotalScoreBounds | modules/gateway/services/complianceService.js:346 | with every score in 0..100 the total lies between 0 and 100 times the number of files |
| ComplianceService.AverageScoreBounds | modules/gateway/services/complianceService.js:346-347 | with every score in 0..100 so is the average |
| DataStructureService.CalculateCriticalIssues | modules/gateway/services/dataStructureServices.js:222-229 | the number of critical suggestions never exceeds the number of suggestions |
| DataStructureService.CriticalIssuesIff | modules/gateway/services/dataStructureServices.js:222-229 | the count is zero exactly when no suggestion is a nested loop, a manual array search, high or critical, and equals the total exactly when every one is |
| DataStructureService.RecommendedStructures | modules/gateway/services/dataStructureServices.js:232-238 | a structure is listed exactly when it is non-empty and some suggestion recommends it |
| DataStructureService.ExtractRecommendations | modules/gateway/services/dataStructureServices.js:232-240 | the loop adding recommended structures to a set yields the distinct recommended structures in first-occurrence order |
| DataStructureService.IssueKeys | modules/gateway/services/dataStructureServices.js:245 | the object key of each suggestion's issue type, one per suggestion, in order |
| DataStructureService.GroupCounts | modules/gateway/services/dataStructureServices.js:243-248 | the grouping has one entry per distinct issue type in first-occurrence order, each counting that type's suggestions, and the counts add up to the number of suggestions |
| DataStructureService.Enrich | modules/gateway/services/dataStructureServices.js:149-157 | the enriched analysis keeps the report's folder and suggestions |
| DataStructureService.EnrichConsistent | modules/gateway/services/dataStructureServices.js:149-157 | an enriched analysis has issue types adding up to its total, critical issues within it, and each type counting its suggestions |
| DataStructureService.PotentialSavings | modules/gateway/services/dataStructureServices.js:287 | the savings are 8.5 times the issues rounded to the nearest integer |
| DataStructureService.Folders | modules/gateway/services/dataStructureServices.js:304 | the folder of each analysis, in order |
| DataStructureService.Aggregated | modules/gateway/services/dataStructureServices.js:251-305 | every file is counted, high-impact issues are the critical ones, the reduction is High exactly when some issue is critical, at most five recommendations are kept, and the folders are exactly the files' folders without duplicates |
| DataStructureService.TypesAddUp | modules/gateway/services/dataStructureServices.js:252-265 | over consistent files the merged issue types add up to the total issues, and critical issues lie between zero and that total |
| DataStructureService.IssueTypeSums | modules/gateway/services/dataStructureServices.js:260-265 | the merged count of each issue type is its count summed over the files |
| DataStructureService.RecommendationCounts | modules/gateway/services/dataStructureServices.js:270-283 | each recommendation key counts its suggestions, the counts add up to the keyed suggestions, and the five kept are a descending selection no smaller than any count left out |
| DataStructureService.MostCommonIssueIsLastMax | modules/gateway/services/dataStructureServices.js:299-301 | the most common issue is No issues when no type was counted, otherwise the last type of greatest count |
| BaseFileName.HexRun | modules/gateway/services/complianceService.js:55-56 | the length of the greedy run of lower-case hex digits opening the name: every character in it is hex and the next one is not |
| BaseFileName.StripHashPrefix | modules/gateway/services/complianceService.js:55-58 | a non-empty hex hash and its underscore are removed from the front, whatever follows |
| BaseFileName.StripAllClean | modules/gateway/services/complianceService.js:61-67 | a name holding none of the decorations passes through the replace chain unchanged |
| BaseFileName.EnsureJava | modules/gateway/services/complianceService.js:69-71 | the result always ends in .java |
| BaseFileName.EnsureJavaFixed | modules/gateway/services/complianceService.js:69-71 | a name is left alone exactly when it already ends in .java, and appending is idempotent |
| BaseFileName.OptimizationBaseName | modules/gateway/services/optimizationService.js:92-124 | the optimization service's base name always ends in .java |
| BaseFileName.ComplianceBaseName | modules/gateway/services/complianceService.js:53-74 | the compliance service's base name always ends in .java |
| BaseFileName.DataStructureBaseName | modules/gateway/services/dataStructureServices.js:56-78 | the data-structure service's base name always ends in .java |
| BaseFileName.HashedClean | modules/gateway/services/complianceService.js:54-57 | an extension starting with a dot occurs in a hashed name only if it occurs in the name itself |
| BaseFileName.ExtAtEnd | modules/gateway/services/complianceService.js:54 | in a hashed Java name followed by its extension, the first occurrence of the extension is the final one |
| BaseFileName.CutExt | modules/gateway/services/complianceService.js:54 | replacing the extension once leaves the hashed name |
| BaseFileName.OptimizationRoundTrip | modules/gateway/services/optimizationService.js:92-124 | a report named hash_name.json gives back name, for any Java name free of the extension and of the decorations |
| BaseFileName.ComplianceRoundTrip | modules/gateway/services/complianceService.js:53-74 | a report named hash_name.report.json gives back name, for any Java name free of the extensions and of the decorations |
| BaseFileName.DataStructureRoundTrip | modules/gateway/services/dataStructureServices.js:56-78 | a report named hash_name.report.json gives back name, for any Java name free of the extension and of the decorations |
| Tally.KeyList | modules/gateway/services/dataStructureServices.js:299 | the keys of an object, one per entry, in insertion order |
| Tally.Find | modules/gateway/services/dataStructureServices.js:245 | the entry holding a key, absent exactly when the object lacks the key |
| Tally.Add | modules/gateway/services/dataStructureServices.js:245 | after adding, the key is present; an existing key keeps the key order and a new key is appended last |
| Tally.AddGet | modules/gateway/services/dataStructureServices.js:245 | adding n to a key raises that key's count by n and leaves every other count alone |
| Tally.AddKeyed | modules/gateway/services/dataStructureServices.js:245 | adding keeps the keys distinct |
| Tally.AddTotal | modules/gateway/services/dataStructureServices.js:244-247 | adding n raises the sum of the counts by n |
| Tally.TallyCounts | modules/gateway/services/dataStructureServices.js:243-248 | counting a list gives each distinct key once in first-occurrence order with its number of occurrences, and the counts add up to the length of the list |
| Tally.FirstMax | modules/gateway/services/optimizationService.js:218 | the index of the first greatest count, absent exactly for an empty object |
| Tally.FirstMaxOccurs | modules/gateway/services/optimizationService.js:218 | over a non-empty list the first greatest count belongs to a key of the list that occurs at least as often as any other |
| Tally.TallyAtMost | modules/gateway/services/optimizationService.js:218 | no key occurs more often than the one at the first greatest count |
| Tally.MergeIntoGet | modules/gateway/services/dataStructureServices.js:260-265 | merging an object adds each of its counts to the accumulated count of the same key |
| Tally.MergeIntoKeyed | modules/gateway/services/dataStructureServices.js:260-265 | merging keeps the accumulated keys distinct |
| Tally.MergeIntoTotal | modules/gateway/services/dataStructureServices.js:260-265 | merging adds the totals |
| Tally.Insert | modules/gateway/services/dataStructureServices.js:281 | the result holds the entries plus the new one, and the new one comes first exactly when the list is empty or its head has a smaller count |
| Tally.InsertSorted | modules/gateway/services/dataStructureServices.js:281 | inserting into a list sorted by descending count keeps it sorted |
| Tally.SortDesc | modules/gateway/services/dataStructureServices.js:281 | the stable sort by descending count is a permutation of the entries |
| Tally.SortSorted | modules/gateway/services/dataStructureServices.js:281 | the sorted entries are in descending order of count |
| Tally.SortHead | modules/gateway/services/complianceService.js:344 | the head of the sorted entries is the first entry of greatest count |
| Tally.Top | modules/gateway/services/dataStructureServices.js:282 | the slice holds the first n sorted entries, or all of them when there are fewer |
| Tally.TopEntries | modules/gateway/services/dataStructureServices.js:280-283 | the kept entries are sorted, together with the rest they are the whole object, and no entry left out has a greater count than the last one kept |
| Tally.ReduceMaxLast | modules/gateway/services/dataStructureServices.js:299-301 | reducing the keys with a strict greater-than comparison ends at the initial value for an empty object and otherwise at the last key of greatest count |


## Left out

- File-system scanning and disk reads are not modelled. In the services this covers `getAllComplianceFiles`, `getAvailable*Files`, `get*Analysis`, `getFile*Analysis`, the search functions and the summary endpoints; JSON parsing and console logging are left out too. The model starts from a report that is already parsed.
- The data-structure agent's `loadInput` reads its source from a string parameter; the console output of `loadInput` and `buildReport` is not modelled.
- `checkMemoryIssues` and `checkRepeatedConversions` of the data-structure agent are not modelled: both return an empty list and `analyze` never calls them.
- RuleEngine's `analyzeCode` and its `analyzeAST` walk over every object and array of the parsed tree (modules/static-analyzer/dist/rules/RuleEngine.js, lines 21-47) are not modelled, and neither are the security checks QS001, QS002, QS003 and QS008 (lines 48-68, which match regular expressions against `JSON.stringify` of each method) or the documentation check QD001 (lines 95-105). The generic JSON tree they walk is not part of this model. The style check, `hasDefaultInTree` and the metric checks of the same file are modelled, as are the compliance agent's own line-based `analyze` checks and its naming checks on classes, methods, fields and functions.
- The compliance result's `violations: []` field is not modelled: it is a constant empty list.
- The static analyzer's rule table is a parameter, not loaded from `rules.json`: that load is file I/O.
- The CFG builder's uuids are a fresh counter. Distinctness is all the code relies on.
- The parser's `extractLocalVariables`, `extractParams` and `gatherTokens` pretty-printing are not modelled: they depend on the foreign parser's token layout. The loop and condition scans read a simplified name/children tree. `src/parser/ASTParser.ts` is not part of this model; the built `dist/parser/ASTParser.js` is, since only that one computes the loop depth and count.
- ComplianceAgent.FindLineByName: looks for the name as literal text between word boundaries. The source builds `` new RegExp(`\\b${name}\\b`) `` from the unescaped name (modules/Multi_Agent/compliance/src/compliance_agent.ts, line 43). So a name holding a regular-expression character behaves differently there: for `a$b` the `$` is an end anchor and the source never finds the line, while the model does. Java identifiers can hold `$`, and it is the only such character they can hold.
- ComplianceRules.LongLineIff: a `char` here is one Unicode scalar value, so the length rule (`^.{121,}$`) counts scalars. JavaScript counts UTF-16 code units, so a line of 61 characters outside the Basic Multilingual Plane is long in the source and short in the model. Lines of BMP characters agree.
- `toLowerCase` and `toUpperCase` map ASCII letters only; Unicode case mapping is left out.
- JavaScript objects keep keys in insertion order in the model. Integer-like keys, which JavaScript lists first, do not occur among the issue types and severities.
- NaN, `-0` and non-string severities or names are left out. The model types each field as the string or number the agents write.
- ScoreHelper.ComputeMethodScore: penalties are integer hundredths, so the score is a whole number and `parseFloat(score.toFixed(1))` leaves it unchanged; the binary floating-point rounding of the penalty sum is not modelled.
- ScoreHelper.ComputeAverageScore: keeps the unrounded mean as the pair of total and count, while the source returns it rounded to one decimal with `parseFloat(avgScore.toFixed(1))`. The level is taken from the unrounded mean in both.
- `calculateOptimizationAggregatedMetrics` and `calculatePerformanceScore` of the optimization service are not modelled. They are dashboard summaries outside the modelled processing of one report.
- The optimization agent's map-versus-object and array-includes rules are modelled as never applying, which is what their source does.
- In `processComplianceAnalysis` a type mentioning both Naming and Formatting is classified as naming (medium), because the Naming test comes first in the code. The model follows the code.
- ComplianceService.Aggregated: the averages are exact `real` values. The source formats them as strings with `toFixed(2)` and `toFixed(1)` (modules/gateway/services/complianceService.js, lines 353 and 357); the counts and the breakdowns are unaffected.
- DataStructureService.Aggregated: `avgIssuesPerFile` is left as the exact quotient, while the source formats it with `toFixed(2)` (modules/gateway/services/dataStructureServices.js, line 296).
- The `actualData = true` flag that the optimization and compliance services set on every processed analysis (optimizationService.js line 237, complianceService.js line 201) is not modelled: it is a constant.
- The data-structure agent's suggestions carry their detector and line, not the `pattern`, `recommendedDataStructure`, `why` and `energyImpact` texts: these are constant strings fixed by the detector.
- Throws on malformed input are not modelled: the model's inputs are typed records that always hold the fields read. This covers `loadInput` given a null tree (`Object.keys(astObject)`, data_structure_agent.js line 17); a null method record in NestingDepth and FunctionSize (`method.body`, NestingDepth.ts line 46, FunctionSize.ts line 33); a block, blockStatements or statement node without children in the parser (`Object.values(node.children)`, ASTParser.js line 234); a method without `params` in the memoization rule (`node.params.length`, memoization.rule.ts line 46); and a class without `methods` in RuleEngine's metric loop (`for (const method of cls.methods)`, RuleEngine.js line 112).

## Findings

| source | as written | input that shows it | evidently intended | confidence | as-written member | corrected member |
|---|---|---|---|---|---|---|
| modules/Multi_Agent/maintainability_agent/src/metrics/metricsHelper.ts:53 | `calculateDepth` iterates the else block with `for...of`, but `parseIfStatement` stores an else branch whose node name contains "if" as a single object, which is not iterable | a conditionals tree whose `if` node has an else branch node named, say, `ifStatement` (ASTParser.ts:262-263); java-parser names that branch `statement`, which goes through `collectStatements` and yields an array, so `else if (b) {}` from java-parser does not reach it | the depth of the nested else-if is taken like any other branch | low, not executed: latent, reached only by trees whose else node's name contains "if" | MetricsHelper.ElseIfThrows | MetricsHelper.Depth |
| modules/Multi_Agent/maintainability_agent/src/utils/fileUtils.ts:70-73 | the `endsWith('*/')` test runs before the code-line branch, so a code line with a trailing block comment is dropped | the line `x = 1; /* note */` | the line is counted as code; every non-blank line counts exactly once | high, not executed | FileUtils.TrailingCommentLost | FileUtils.EveryLineOnce |
| modules/Multi_Agent/compliance/src/compliance_agent.ts:357-377 | an import is unused when the whole code does not contain its simple name, but the code includes the import line itself | any file with `import java.util.List;` and no other use of `List` | the import line is left out of the search, so an unused import is reported | high, not executed | ComplianceAgent.UnusedImportNeverReported | ComplianceAgent.UnusedImportReported |

The operations follow the code as written: `CheckNestingDepth` and
`EvaluateAllMetrics` return an error where `calculateDepth` throws,
`LocAndComments` and `CountLines` use the scan as written, and
`LineCheck`, `LinesCheck`, `AnalyzeOf` and `Analyze` use
`ImportCheckAsWritten`. The corrected definitions sit beside them under
their own names: `Depth`, `CheckNestingDepthIntended` and
`EvaluateAllMetricsIntended`; `Scan` and `LocAndCommentsIntended`;
`ImportCheck`. `NestingAgrees`, `EvaluateAgrees` and `StepAgreesIff`
state where the two versions agree.
