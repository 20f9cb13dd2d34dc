/** The energy analyser's control-flow-graph metrics: cyclomatic complexity
    from node and edge counts, a nesting estimate from loop-like labels, and
    cycle detection by depth-first search. */
module CfgAnalyzer {
  import opened Wrappers
  import opened Text

  /** A node id after JavaScript's property-key conversion. */
  type NodeId = nat

  /** A node; a missing `label` or `type` is the empty string, which `||`
      treats the same way. */
  datatype CfgNode = CfgNode(id: NodeId, labelText: string, kind: string)

  /** A graph as read from JSON: `None` stands for a `nodes` or `edges`
      field that is missing or not an array. */
  datatype Cfg = Cfg(nodes: Option<seq<CfgNode>>, edges: Option<seq<(NodeId, NodeId)>>)

  predicate WellFormed(cfg: Option<Cfg>)
  {
    cfg.Some? && cfg.value.nodes.Some? && cfg.value.edges.Some?
  }

  /** `computeCyclomatic`: M = E - N + 2, never below 1. */
  function ComputeCyclomatic(cfg: Option<Cfg>): (m: int)
    ensures m >= 1
    ensures !WellFormed(cfg) ==> m == 1
    ensures WellFormed(cfg) ==>
              var e, n := |cfg.value.edges.value|, |cfg.value.nodes.value|;
              (e - n + 2 >= 1 ==> m == e - n + 2) && (e - n + 2 < 1 ==> m == 1)
  {
    if !WellFormed(cfg) then 1
    else
      var m := |cfg.value.edges.value| - |cfg.value.nodes.value| + 2;
      if m < 1 then 1 else m
  }

  /** One more edge never lowers the cyclomatic complexity, and raises it by
      one once the graph has at least as many edges as nodes minus one. */
  lemma CyclomaticEdgeMonotone(nodes: seq<CfgNode>, edges: seq<(NodeId, NodeId)>, e: (NodeId, NodeId))
    ensures ComputeCyclomatic(Some(Cfg(Some(nodes), Some(edges)))) <= ComputeCyclomatic(Some(Cfg(Some(nodes), Some(edges + [e]))))
    ensures |edges| + 1 >= |nodes| ==>
              ComputeCyclomatic(Some(Cfg(Some(nodes), Some(edges + [e])))) == ComputeCyclomatic(Some(Cfg(Some(nodes), Some(edges)))) + 1
  {
  }

  /** The lower-cased label (falling back to the type) names a loop. */
  predicate LoopLike(n: CfgNode)
  {
    var lab := ToLower(if n.labelText != "" then n.labelText else n.kind);
    Contains(lab, "for") || Contains(lab, "while") || Contains(lab, "loop") || Contains(lab, "foreach")
  }

  /** The number of loop-like nodes. */
  function LoopLikeCount(nodes: seq<CfgNode>): (k: nat)
    ensures k <= |nodes|
  {
    if nodes == [] then 0
    else LoopLikeCount(nodes[..|nodes| - 1]) + (if LoopLike(nodes[|nodes| - 1]) then 1 else 0)
  }

  /** `estimateNestingDepth`: one plus the number of loop-like nodes; 1 for
      a missing graph or node list. */
  method EstimateNestingDepth(cfg: Option<Cfg>) returns (depth: nat)
    ensures cfg.None? || cfg.value.nodes.None? ==> depth == 1
    ensures cfg.Some? && cfg.value.nodes.Some? ==> depth == 1 + LoopLikeCount(cfg.value.nodes.value)
    ensures 1 <= depth
  {
    if cfg.None? || cfg.value.nodes.None? {
      return 1;
    }
    var nodes := cfg.value.nodes.value;
    depth := 1;
    for i := 0 to |nodes|
      invariant depth == 1 + LoopLikeCount(nodes[..i])
    {
      assert nodes[..i + 1][..i] == nodes[..i];
      if LoopLike(nodes[i]) {
        depth := depth + 1;
      }
    }
    assert nodes[..|nodes|] == nodes;
  }

  /** The estimate is at most one more than the number of nodes, and exactly
      that when every node is loop-like. */
  lemma {:induction false} NestingEstimateBounds(nodes: seq<CfgNode>)
    ensures LoopLikeCount(nodes) <= |nodes|
    ensures (forall k :: 0 <= k < |nodes| ==> LoopLike(nodes[k])) ==> LoopLikeCount(nodes) == |nodes|
    ensures (forall k :: 0 <= k < |nodes| ==> !LoopLike(nodes[k])) ==> LoopLikeCount(nodes) == 0
  {
    if nodes != [] {
      NestingEstimateBounds(nodes[..|nodes| - 1]);
    }
  }

  /** The `foreach` test is subsumed by the `for` test. */
  lemma ForeachImpliesFor(lab: string)
    ensures Contains(lab, "foreach") ==> Contains(lab, "for")
  {
    if Contains(lab, "foreach") {
      var i: nat :| i <= |lab| && IsAt(lab, "foreach", i);
      assert lab[i..i + 3] == lab[i..i + 7][..3];
      assert IsAt(lab, "for", i);
    }
  }

  // ---------------------------------------------------------------------
  // Cycle detection
  // ---------------------------------------------------------------------

  /** The adjacency object `hasCycle` builds: `keys` in insertion order and
      the successor list of each key. */
  datatype Adjacency = Adjacency(keys: seq<NodeId>, succ: map<NodeId, seq<NodeId>>)

  function Succ(succ: map<NodeId, seq<NodeId>>, u: NodeId): seq<NodeId>
  {
    if u in succ then succ[u] else []
  }

  /** Every node gets an empty list, in node order. */
  function AddNodes(adj: Adjacency, nodes: seq<CfgNode>): Adjacency
  {
    if nodes == [] then adj
    else
      var a := AddNodes(adj, nodes[..|nodes| - 1]);
      var id := nodes[|nodes| - 1].id;
      Adjacency(if id in a.succ then a.keys else a.keys + [id], a.succ[id := []])
  }

  /** Every edge appends its target to its source's list, creating the list
      if the source is not a node. */
  function AddEdges(adj: Adjacency, edges: seq<(NodeId, NodeId)>): Adjacency
  {
    if edges == [] then adj
    else
      var a := AddEdges(adj, edges[..|edges| - 1]);
      var (from, to) := edges[|edges| - 1];
      if from in a.succ then Adjacency(a.keys, a.succ[from := a.succ[from] + [to]])
      else Adjacency(a.keys + [from], a.succ[from := [to]])
  }

  function BuildAdjacency(nodes: seq<CfgNode>, edges: seq<(NodeId, NodeId)>): Adjacency
  {
    AddEdges(AddNodes(Adjacency([], map[]), nodes), edges)
  }

  /** The keys are exactly the map's keys. */
  ghost predicate KeysExact(adj: Adjacency)
  {
    forall k :: k in adj.keys <==> k in adj.succ
  }

  lemma {:induction false} AddNodesShape(nodes: seq<CfgNode>)
    ensures KeysExact(AddNodes(Adjacency([], map[]), nodes))
    ensures forall k :: k in AddNodes(Adjacency([], map[]), nodes).succ ==> AddNodes(Adjacency([], map[]), nodes).succ[k] == []
  {
    if nodes != [] {
      AddNodesShape(nodes[..|nodes| - 1]);
    }
  }

  /** After the edge pass, the keys are exact and `v` follows `u` iff the
      edge list holds `(u, v)`, also for a `u` that is not a node. */
  lemma {:induction false} AddEdgesShape(adj: Adjacency, edges: seq<(NodeId, NodeId)>)
    requires KeysExact(adj)
    requires forall k :: k in adj.succ ==> adj.succ[k] == []
    ensures KeysExact(AddEdges(adj, edges))
    ensures forall u: NodeId, v: NodeId :: v in Succ(AddEdges(adj, edges).succ, u) <==> (u, v) in edges
  {
    if edges != [] {
      var init := edges[..|edges| - 1];
      AddEdgesShape(adj, init);
      assert edges == init + [edges[|edges| - 1]];
      var a := AddEdges(adj, init);
      var (from, to) := edges[|edges| - 1];
      forall u: NodeId, v: NodeId
        ensures v in Succ(AddEdges(adj, edges).succ, u) <==> (u, v) in edges
      {
        assert (u, v) in edges <==> (u, v) in init || (u, v) == (from, to);
        if u == from {
          assert Succ(AddEdges(adj, edges).succ, u) == Succ(a.succ, u) + [to];
        } else {
          assert Succ(AddEdges(adj, edges).succ, u) == Succ(a.succ, u);
        }
      }
    }
  }

  /** `hasCycle`'s adjacency relation is exactly the edge list. */
  lemma AdjacencyIsEdges(nodes: seq<CfgNode>, edges: seq<(NodeId, NodeId)>)
    ensures KeysExact(BuildAdjacency(nodes, edges))
    ensures forall u: NodeId, v: NodeId :: v in Succ(BuildAdjacency(nodes, edges).succ, u) <==> (u, v) in edges
  {
    AddNodesShape(nodes);
    AddEdgesShape(AddNodes(Adjacency([], map[]), nodes), edges);
  }

  /** `p` lists the nodes of a directed cycle in order: each is followed by
      the next, and the last by the first (a self-loop when |p| = 1). */
  ghost predicate IsCycle(succ: map<NodeId, seq<NodeId>>, p: seq<NodeId>)
  {
    |p| >= 1 && p[0] in Succ(succ, p[|p| - 1])
    && forall k :: 0 <= k < |p| - 1 ==> p[k + 1] in Succ(succ, p[k])
  }

  ghost predicate HasDirectedCycle(succ: map<NodeId, seq<NodeId>>)
  {
    exists p :: IsCycle(succ, p)
  }

  /** A cycle in the list of edges. */
  ghost predicate EdgeCycle(edges: seq<(NodeId, NodeId)>, p: seq<NodeId>)
  {
    |p| >= 1 && (p[|p| - 1], p[0]) in edges
    && forall k :: 0 <= k < |p| - 1 ==> (p[k], p[k + 1]) in edges
  }

  /** The position of `x` in a duplicate-free sequence. */
  ghost function Rank(s: seq<NodeId>, x: NodeId): (r: nat)
    requires x in s
    ensures r < |s| && s[r] == x
  {
    if s[|s| - 1] == x then |s| - 1 else Rank(s[..|s| - 1], x)
  }

  /** Every successor of a node in `done` comes earlier in `done`. */
  ghost predicate FinishOrdered(succ: map<NodeId, seq<NodeId>>, done: seq<NodeId>)
  {
    forall i :: 0 <= i < |done| ==> forall v :: v in Succ(succ, done[i]) ==> v in done[..i]
  }

  /** Along the first `k + 1` nodes of a path inside `done`, ranks strictly
      decrease. */
  lemma {:induction false} RanksDecrease(succ: map<NodeId, seq<NodeId>>, done: seq<NodeId>, p: seq<NodeId>, k: nat)
    requires FinishOrdered(succ, done)
    requires forall i, j :: 0 <= i < j < |done| ==> done[i] != done[j]
    requires 1 <= k < |p|
    requires forall j :: 0 <= j < |p| ==> p[j] in done
    requires forall j :: 0 <= j < |p| - 1 ==> p[j + 1] in Succ(succ, p[j])
    ensures Rank(done, p[k]) < Rank(done, p[0])
  {
    var r := Rank(done, p[k - 1]);
    assert p[k] in done[..r];
    var j :| 0 <= j < r && done[j] == p[k];
    assert Rank(done, p[k]) == j;
    if k > 1 {
      RanksDecrease(succ, done, p, k - 1);
    }
  }

  /** No cycle runs through finished nodes whose successors all finished
      before them. */
  lemma NoCycleInFinished(succ: map<NodeId, seq<NodeId>>, done: seq<NodeId>, p: seq<NodeId>)
    requires FinishOrdered(succ, done)
    requires forall i, j :: 0 <= i < j < |done| ==> done[i] != done[j]
    requires forall j :: 0 <= j < |p| ==> p[j] in done
    ensures !IsCycle(succ, p)
  {
    if IsCycle(succ, p) {
      var last := p[|p| - 1];
      var r := Rank(done, last);
      assert p[0] in done[..r];
      var j :| 0 <= j < r && done[j] == p[0];
      assert Rank(done, p[0]) == j;
      if |p| > 1 {
        RanksDecrease(succ, done, p, |p| - 1);
      }
      assert false;
    }
  }

  /** The bookkeeping of a search that has not found a cycle yet: the stack
      set is the path, the path follows edges, finished ids are the visited
      ones off the stack, each finished once, successors finishing first. */
  ghost predicate SearchInvariant(succ: map<NodeId, seq<NodeId>>, visited: set<NodeId>, inStack: set<NodeId>,
                                  path: seq<NodeId>, done: seq<NodeId>)
  {
    (forall x :: x in inStack <==> x in path)
    && (forall j :: 0 <= j < |path| - 1 ==> path[j + 1] in Succ(succ, path[j]))
    && inStack <= visited
    && (forall x :: x in done <==> x in visited && x !in inStack)
    && (forall i, j :: 0 <= i < j < |done| ==> done[i] != done[j])
    && FinishOrdered(succ, done)
  }

  /** Entering `dfs(u)` keeps the bookkeeping. */
  lemma EnterKeeps(succ: map<NodeId, seq<NodeId>>, visited: set<NodeId>, inStack: set<NodeId>,
                   path: seq<NodeId>, done: seq<NodeId>, u: NodeId)
    requires SearchInvariant(succ, visited, inStack, path, done)
    requires u !in visited && (path == [] || u in Succ(succ, path[|path| - 1]))
    ensures SearchInvariant(succ, visited + {u}, inStack + {u}, path + [u], done)
    ensures u !in path
  {
  }

  /** Leaving `dfs(u)` with every successor finished keeps the bookkeeping. */
  lemma LeaveKeeps(succ: map<NodeId, seq<NodeId>>, visited: set<NodeId>, inStack: set<NodeId>,
                   path: seq<NodeId>, done: seq<NodeId>, u: NodeId)
    requires SearchInvariant(succ, visited, inStack, path + [u], done)
    requires u !in path
    requires forall v :: v in Succ(succ, u) ==> v in done
    ensures SearchInvariant(succ, visited, inStack - {u}, path, done + [u])
  {
    var p := path + [u];
    forall j | 0 <= j < |path| - 1 ensures path[j + 1] in Succ(succ, path[j]) {
      assert p[j] == path[j] && p[j + 1] == path[j + 1];
    }
    forall x ensures x in inStack - {u} <==> x in path {
      assert x in p <==> x in path || x == u;
    }
    var d := done + [u];
    forall i | 0 <= i < |d| ensures forall v :: v in Succ(succ, d[i]) ==> v in d[..i] {
      if i < |done| {
        assert d[..i] == done[..i];
      } else {
        assert d[..i] == done;
      }
    }
  }

  /** A successor of the top of the stack that is on the stack closes a
      cycle. */
  lemma BackEdgeCycle(succ: map<NodeId, seq<NodeId>>, path: seq<NodeId>, v: NodeId)
    requires |path| >= 1
    requires forall j :: 0 <= j < |path| - 1 ==> path[j + 1] in Succ(succ, path[j])
    requires v in path && v in Succ(succ, path[|path| - 1])
    ensures HasDirectedCycle(succ)
  {
    var k :| 0 <= k < |path| && path[k] == v;
    var c := path[k..];
    forall j | 0 <= j < |c| - 1 ensures c[j + 1] in Succ(succ, c[j]) {
      assert c[j] == path[k + j] && c[j + 1] == path[k + j + 1];
    }
    assert IsCycle(succ, c);
  }

  /** The state of one `hasCycle` run: the adjacency, the `visited` and
      `inStack` maps (as sets of ids) and the `found` flag. The ghost `path`
      lists the ids on the search stack, outermost first, and `done` the ids
      whose search has finished, in finishing order. */
  class CycleSearch {
    const succ: map<NodeId, seq<NodeId>>
    ghost const universe: set<NodeId>
    var visited: set<NodeId>
    var inStack: set<NodeId>
    var found: bool
    ghost var path: seq<NodeId>
    ghost var done: seq<NodeId>

    ghost predicate Closed()
      reads this
    {
      (forall k :: k in succ ==> k in universe)
      && (forall k, v :: k in succ && v in succ[k] ==> v in universe)
      && visited <= universe
      && (found ==> HasDirectedCycle(succ))
    }

    ghost predicate Consistent()
      reads this
    {
      SearchInvariant(succ, visited, inStack, path, done)
    }

    constructor (succ: map<NodeId, seq<NodeId>>)
      ensures this.succ == succ && visited == {} && inStack == {} && !found
      ensures path == [] && done == []
      ensures Closed() && Consistent()
    {
      this.succ := succ;
      universe := succ.Keys + set k, v | k in succ && v in succ[k] :: v;
      visited := {};
      inStack := {};
      found := false;
      path := [];
      done := [];
    }

    /** The recursive `dfs`: returns at once if a cycle was already found;
        otherwise marks `u` visited and on the stack, follows its successors
        and reports a cycle at a successor that is on the stack. */
    method Dfs(u: NodeId)
      requires Closed() && u in universe && u !in visited
      requires !found ==> Consistent() && (path == [] || u in Succ(succ, path[|path| - 1]))
      modifies this`visited, this`inStack, this`found, this`path, this`done
      ensures Closed()
      ensures old(found) ==> found
      ensures old(visited) <= visited
      ensures !found ==> Consistent() && u in done && path == old(path) && inStack == old(inStack)
      decreases universe - visited, 0
    {
      if found {
        return;
      }
      ghost var below, stack0 := path, inStack;
      Enter(u);
      var vs := Succ(succ, u);
      var i := 0;
      while i < |vs|
        invariant 0 <= i <= |vs|
        invariant Closed() && old(visited) + {u} <= visited
        invariant !found ==> Consistent() && path == below + [u] && inStack == stack0 + {u}
        invariant !found ==> forall j :: 0 <= j < i ==> vs[j] in visited && vs[j] !in inStack
      {
        var stop := Visit(u, vs[i], below, stack0);
        if stop {
          return;
        }
        i := i + 1;
      }
      Leave(u, below, stack0);
    }

    /** The start of `dfs(u)`: `u` is marked visited and pushed. */
    method Enter(u: NodeId)
      requires Closed() && u in universe && u !in visited && !found
      requires Consistent() && (path == [] || u in Succ(succ, path[|path| - 1]))
      modifies this`visited, this`inStack, this`path
      ensures visited == old(visited) + {u} && inStack == old(inStack) + {u} && path == old(path) + [u]
      ensures Closed() && Consistent() && u !in old(path) && u !in old(inStack)
    {
      EnterKeeps(succ, visited, inStack, path, done, u);
      visited := visited + {u};
      inStack := inStack + {u};
      path := path + [u];
    }

    /** The end of `dfs(u)` once every successor is finished: `u` is popped
        and finishes. */
    method Leave(u: NodeId, ghost below: seq<NodeId>, ghost stack0: set<NodeId>)
      requires Closed()
      requires !found ==> Consistent() && path == below + [u] && inStack == stack0 + {u} && u !in below && u !in stack0
      requires !found ==> forall v :: v in Succ(succ, u) ==> v in visited && v !in inStack
      modifies this`inStack, this`path, this`done
      ensures Closed() && found == old(found)
      ensures inStack == old(inStack) - {u}
      ensures !found ==> Consistent() && u in done && path == below && inStack == stack0
    {
      if !found {
        assert forall v :: v in Succ(succ, u) ==> v in done;
        LeaveKeeps(succ, visited, inStack, below, done, u);
        path := below;
        done := done + [u];
      }
      inStack := inStack - {u};
    }

    /** One successor `v` of `u` in the loop of `dfs(u)`: an unvisited one
        is searched, one on the stack closes a cycle and stops the search of
        `u` (`stop`). */
    method Visit(u: NodeId, v: NodeId, ghost below: seq<NodeId>, ghost stack0: set<NodeId>) returns (stop: bool)
      requires Closed() && u in universe && v in Succ(succ, u)
      requires !found ==> Consistent() && path == below + [u] && inStack == stack0 + {u}
      modifies this`visited, this`inStack, this`found, this`path, this`done
      ensures Closed() && old(visited) <= visited
      ensures old(found) ==> found
      ensures stop ==> found
      ensures !found ==> Consistent() && path == below + [u] && inStack == stack0 + {u} && v in done
      decreases universe - visited, 1
    {
      stop := false;
      if v !in visited {
        Dfs(v);
      } else if v in inStack {
        if !found {
          BackEdgeCycle(succ, path, v);
        }
        found := true;
        stop := true;
      }
    }
  }

  /** The search itself over a built adjacency: a `dfs` from every key not
      yet visited, in key order, stopping once a cycle is found. */
  method SearchCycle(adj: Adjacency) returns (found: bool)
    requires KeysExact(adj)
    ensures found <==> HasDirectedCycle(adj.succ)
  {
    var search := new CycleSearch(adj.succ);
    for i := 0 to |adj.keys|
      invariant search.succ == adj.succ && search.Closed()
      invariant !search.found ==> search.Consistent() && search.path == [] && search.inStack == {}
      invariant !search.found ==> forall j :: 0 <= j < i ==> adj.keys[j] in search.visited
    {
      var nid := adj.keys[i];
      if nid !in search.visited {
        search.Dfs(nid);
      }
      if search.found {
        break;
      }
    }
    found := search.found;
    if !found {
      forall p | IsCycle(adj.succ, p) ensures false {
        forall j | 0 <= j < |p| ensures p[j] in search.done {
          var next := if j < |p| - 1 then p[j + 1] else p[0];
          assert next in Succ(adj.succ, p[j]);
        }
        NoCycleInFinished(adj.succ, search.done, p);
      }
    }
  }

  /** `hasCycle`: false for a missing or malformed graph; otherwise true
      exactly when the edges contain a directed cycle (a self-loop counts),
      whether or not the ids on it are listed as nodes. */
  method HasCycle(cfg: Option<Cfg>) returns (found: bool)
    ensures !WellFormed(cfg) ==> !found
    ensures WellFormed(cfg) ==> (found <==> exists p :: EdgeCycle(cfg.value.edges.value, p))
  {
    if !WellFormed(cfg) {
      return false;
    }
    var nodes, edges := cfg.value.nodes.value, cfg.value.edges.value;
    var adj := BuildAdjacency(nodes, edges);
    AdjacencyIsEdges(nodes, edges);
    found := SearchCycle(adj);
    assert forall p :: IsCycle(adj.succ, p) <==> EdgeCycle(edges, p);
  }
}
