// The static analyzer's control-flow-graph builder: a chain of Start, the
// method's statements, loops, conditionals, if trees and constructor chaining,
// and End; and the per-class graph that links the method graphs in order.

module CfgBuilder {
  import opened Wrappers
  import opened Seqs
  import opened Text
  import opened CondTree
  import CfgAnalyzer

  /** A node id: `uuidv4()` is modelled by a counter that never repeats. */
  type Id = nat
  type Edge = (Id, Id)

  datatype NodeType = StartNode | EndNode | StatementNode | ConditionNode

  datatype CfgNode = CfgNode(id: Id, labelText: string, kind: NodeType, next: seq<Id>)

  datatype Cfg = Cfg(methodName: string, nodes: seq<CfgNode>, edges: seq<Edge>)

  /** A statement of a method body: its `name` and `type`, empty when absent. */
  datatype StmtInfo = StmtInfo(name: string, kind: string)

  /** A constructor-chaining entry: `this(...)` or `super(...)` with its
      argument texts; an absent `type` is the empty string. */
  datatype Chain = Chain(kind: string, args: seq<string>)

  /** The fields `buildCFG` reads from a parsed method. The statements may sit
      under `body.statements`, `children.block.statements` or
      `children.body.statements`; an absent array is `None` (an absent
      `loops`, `conditionals`, `conditionalsTree` or `constructorChaining` is
      read as empty, like the empty array). */
  datatype MethodInput = MethodInput(
    name: string,
    bodyStatements: Option<seq<StmtInfo>>,
    blockStatements: Option<seq<StmtInfo>>,
    bodyChildStatements: Option<seq<StmtInfo>>,
    loops: seq<string>,
    conditionals: seq<string>,
    conditionalsTree: seq<Cond>,
    constructorChaining: seq<Chain>)

  datatype ClassInput = ClassInput(name: string, methods: seq<MethodInput>)

  /** JavaScript's `a || b` on strings. */
  function Or(a: string, b: string): string
  {
    if a != "" then a else b
  }

  /** `body?.statements || children?.block?.statements || children?.body?.statements || []`. */
  function Statements(m: MethodInput): seq<StmtInfo>
  {
    if m.bodyStatements.Some? then m.bodyStatements.value
    else if m.blockStatements.Some? then m.blockStatements.value
    else if m.bodyChildStatements.Some? then m.bodyChildStatements.value
    else []
  }

  /** `${prefix}${idx}`. */
  function Numbered(prefix: string, idx: nat): string
  {
    prefix + NatToString(idx)
  }

  /** `${chain.type || "constructor"}(${(chain.args || []).join(", ")})`. */
  function ChainLabel(c: Chain): string
  {
    Or(c.kind, "constructor") + "(" + JoinWith(c.args, ", ") + ")"
  }

  function JoinWith(parts: seq<string>, sep: string): string
  {
    if parts == [] then ""
    else if |parts| == 1 then parts[0]
    else JoinWith(parts[..|parts| - 1], sep) + sep + parts[|parts| - 1]
  }

  /** The source of fresh ids. */
  class UuidSource {
    var counter: nat

    constructor ()
      ensures counter == 0
    {
      counter := 0;
    }

    method Fresh() returns (id: Id)
      modifies this
      ensures id == old(counter) && counter == old(counter) + 1
    {
      id := counter;
      counter := counter + 1;
    }
  }

  // ---------------------------------------------------------------------
  // Invariants of a graph under construction
  // ---------------------------------------------------------------------

  function Ids(nodes: seq<CfgNode>): (r: seq<Id>)
    ensures |r| == |nodes| && forall i :: 0 <= i < |nodes| ==> r[i] == nodes[i].id
  {
    seq(|nodes|, i requires 0 <= i < |nodes| => nodes[i].id)
  }

  lemma IdsAppend(a: seq<CfgNode>, b: seq<CfgNode>)
    ensures Ids(a + b) == Ids(a) + Ids(b)
  {
  }

  /** Ids below `bound` and pairwise distinct; every edge joins two nodes of
      the graph and leads to a newer id; no `next` list filled yet. */
  ghost predicate Partial(nodes: seq<CfgNode>, edges: seq<Edge>, bound: nat)
  {
    (forall i :: 0 <= i < |nodes| ==> nodes[i].id < bound && nodes[i].next == [])
    && (forall i, j :: 0 <= i < j < |nodes| ==> nodes[i].id != nodes[j].id)
    && (forall k :: 0 <= k < |edges| ==> edges[k].0 in Ids(nodes) && edges[k].1 in Ids(nodes))
    && (forall k :: 0 <= k < |edges| ==> edges[k].0 < edges[k].1)
  }

  /** Adding a node with a fresh id and one edge to it from a node already in
      the graph keeps the invariant. */
  lemma AttachKeeps(nodes: seq<CfgNode>, edges: seq<Edge>, bound: nat, fromId: Id, n: CfgNode)
    requires Partial(nodes, edges, bound)
    requires fromId in Ids(nodes) && n.id == bound && n.next == []
    ensures Partial(nodes + [n], edges + [(fromId, bound)], bound + 1)
  {
    IdsAppend(nodes, [n]);
    var nodes', edges' := nodes + [n], edges + [(fromId, bound)];
    forall k | 0 <= k < |edges'| ensures edges'[k].0 in Ids(nodes') && edges'[k].1 in Ids(nodes') {
      if k < |edges| {
        assert edges'[k] == edges[k];
      } else {
        assert Ids(nodes')[|nodes|] == bound;
      }
    }
  }

  /** What a builder step adds after `nodes0`/`edges0`, whose ids are below
      `c0`: as many nodes as edges, each with a fresh id of kind statement or
      condition, and edges that lead to new nodes. */
  ghost predicate Extends(nodes0: seq<CfgNode>, edges0: seq<Edge>, nodes: seq<CfgNode>, edges: seq<Edge>, c0: nat)
  {
    |nodes0| <= |nodes| && |edges0| <= |edges|
    && nodes[..|nodes0|] == nodes0 && edges[..|edges0|] == edges0
    && |nodes| - |nodes0| == |edges| - |edges0|
    && (forall i :: |nodes0| <= i < |nodes| ==>
          c0 <= nodes[i].id && (nodes[i].kind == StatementNode || nodes[i].kind == ConditionNode))
    && (forall k :: |edges0| <= k < |edges| ==> c0 <= edges[k].1)
  }

  /** New edges start at `from` or at a node newer than `c0`. */
  ghost predicate LeaveFrom(edges0: seq<Edge>, edges: seq<Edge>, from: Id, c0: nat)
  {
    forall k :: |edges0| <= k < |edges| ==> edges[k].0 == from || c0 <= edges[k].0
  }

  /** A builder step grew the graph from `nodes0`/`edges0` (ids below `c0`)
      to `nodes`/`edges` (ids below `bound`), hanging what it added below
      `from`. */
  ghost predicate Grown(nodes0: seq<CfgNode>, edges0: seq<Edge>, nodes: seq<CfgNode>, edges: seq<Edge>,
                       from: Id, c0: nat, bound: nat)
  {
    c0 <= bound && Partial(nodes, edges, bound) && Extends(nodes0, edges0, nodes, edges, c0)
    && LeaveFrom(edges0, edges, from, c0)
  }

  lemma GrownRefl(nodes: seq<CfgNode>, edges: seq<Edge>, from: Id, c0: nat)
    requires Partial(nodes, edges, c0)
    ensures Grown(nodes, edges, nodes, edges, from, c0, c0)
  {
    assert nodes[..|nodes|] == nodes && edges[..|edges|] == edges;
  }

  /** One node addition: a fresh id, an empty `next`, one edge to it from a
      node already in the graph. */
  lemma GrownAttach(n0: seq<CfgNode>, e0: seq<Edge>, n: seq<CfgNode>, e: seq<Edge>, from: Id, c0: nat,
                    bound: nat, x: Id, node: CfgNode)
    requires Grown(n0, e0, n, e, from, c0, bound) && x in Ids(n) && (x == from || c0 <= x)
    requires node.id == bound && node.next == [] && (node.kind == StatementNode || node.kind == ConditionNode)
    ensures Grown(n0, e0, n + [node], e + [(x, bound)], from, c0, bound + 1)
    ensures bound in Ids(n + [node])
  {
    AttachKeeps(n, e, bound, x, node);
    var n', e' := n + [node], e + [(x, bound)];
    assert n'[..|n0|] == n[..|n0|] && e'[..|e0|] == e[..|e0|];
    assert Ids(n')[|n|] == bound;
  }

  lemma GrownTrans(n0: seq<CfgNode>, e0: seq<Edge>, n1: seq<CfgNode>, e1: seq<Edge>, n2: seq<CfgNode>,
                   e2: seq<Edge>, from: Id, from2: Id, c0: nat, c1: nat, c2: nat)
    requires Grown(n0, e0, n1, e1, from, c0, c1) && Grown(n1, e1, n2, e2, from2, c1, c2)
    requires from2 == from || c0 <= from2
    ensures Grown(n0, e0, n2, e2, from, c0, c2)
  {
    assert n2[..|n0|] == n2[..|n1|][..|n0|];
    assert e2[..|e0|] == e2[..|e1|][..|e0|];
    forall i | |n0| <= i < |n2|
      ensures c0 <= n2[i].id && (n2[i].kind == StatementNode || n2[i].kind == ConditionNode)
    {
      if i < |n1| {
        assert n2[i] == n2[..|n1|][i];
      }
    }
    forall k | |e0| <= k < |e2| ensures c0 <= e2[k].1 && (e2[k].0 == from || c0 <= e2[k].0) {
      if k < |e1| {
        assert e2[k] == e2[..|e1|][k];
      }
    }
  }

  /** Ids stay in a graph that grows at its end. */
  lemma IdsGrow(a: seq<CfgNode>, b: seq<CfgNode>)
    requires |a| <= |b| && b[..|a|] == a
    ensures forall x :: x in Ids(a) ==> x in Ids(b)
  {
    forall x | x in Ids(a) ensures x in Ids(b) {
      var i :| 0 <= i < |a| && Ids(a)[i] == x;
      assert b[i] == a[i];
    }
  }

  // ---------------------------------------------------------------------
  // Chains of nodes
  // ---------------------------------------------------------------------

  /** The nodes a chain of `labels` adds, with ids from `c0` on. */
  function NewNodes(c0: nat, labels: seq<string>, kind: NodeType): (r: seq<CfgNode>)
    ensures |r| == |labels|
  {
    seq(|labels|, j requires 0 <= j < |labels| => CfgNode(c0 + j, labels[j], kind, []))
  }

  /** The edges a chain of `count` nodes adds: from `from` to the first, then
      from each to the next. */
  function ChainEdges(from: Id, c0: nat, count: nat): (r: seq<Edge>)
    ensures |r| == count
  {
    seq(count, j requires 0 <= j < count => (if j == 0 then from else c0 + j - 1, c0 + j))
  }

  lemma NewNodesSnoc(c0: nat, labels: seq<string>, i: nat, kind: NodeType)
    requires i < |labels|
    ensures NewNodes(c0, labels[..i + 1], kind) == NewNodes(c0, labels[..i], kind) + [CfgNode(c0 + i, labels[i], kind, [])]
  {
  }

  lemma ChainEdgesSnoc(from: Id, c0: nat, i: nat, last: Id)
    requires last == if i == 0 then from else c0 + i - 1
    ensures ChainEdges(from, c0, i + 1) == ChainEdges(from, c0, i) + [(last, c0 + i)]
  {
  }

  /** The `Start`, then the nodes added after `End`, in the order they were
      added. */
  function ChainOrder(nodes: seq<CfgNode>): seq<CfgNode>
    requires |nodes| >= 2
  {
    [nodes[0]] + nodes[2..]
  }

  /** So far the graph is a single chain from Start through every later node,
      ending at `last`. */
  ghost predicate ChainSoFar(nodes: seq<CfgNode>, edges: seq<Edge>, last: Id)
  {
    |nodes| >= 2 && |edges| == |nodes| - 2
    && (forall k :: 0 <= k < |edges| ==> edges[k] == (ChainOrder(nodes)[k].id, ChainOrder(nodes)[k + 1].id))
    && last == ChainOrder(nodes)[|nodes| - 2].id
  }

  lemma ChainAttach(nodes: seq<CfgNode>, edges: seq<Edge>, last: Id, n: CfgNode)
    requires ChainSoFar(nodes, edges, last)
    ensures ChainSoFar(nodes + [n], edges + [(last, n.id)], n.id)
  {
    assert ChainOrder(nodes + [n]) == ChainOrder(nodes) + [n];
  }

  /** Appends one node per label, each linked from the previous one, the
      first from `last0`: the shape of the statement, loop, conditional and
      constructor-chaining loops of `buildCFG` and of the then branch of
      `processConditionTree`. */
  method AppendChain(nodes0: seq<CfgNode>, edges0: seq<Edge>, last0: Id, labels: seq<string>, kind: NodeType,
                     ids: UuidSource)
    returns (nodes: seq<CfgNode>, edges: seq<Edge>, last: Id)
    requires Partial(nodes0, edges0, ids.counter) && last0 in Ids(nodes0)
    requires kind == StatementNode || kind == ConditionNode
    modifies ids
    ensures ids.counter == old(ids.counter) + |labels|
    ensures Grown(nodes0, edges0, nodes, edges, last0, old(ids.counter), ids.counter)
    ensures nodes == nodes0 + NewNodes(old(ids.counter), labels, kind)
    ensures edges == edges0 + ChainEdges(last0, old(ids.counter), |labels|)
    ensures last in Ids(nodes) && last == if labels == [] then last0 else old(ids.counter) + |labels| - 1
    ensures ChainSoFar(nodes0, edges0, last0) ==> ChainSoFar(nodes, edges, last)
  {
    ghost var c0 := ids.counter;
    nodes, edges, last := ChainLoop(nodes0, edges0, last0, labels, kind, ids);
    ChainFacts(nodes0, edges0, last0, c0, labels, kind, nodes, edges, last);
    if ChainSoFar(nodes0, edges0, last0) {
      ChainExtend(nodes0, edges0, last0, c0, labels, kind);
    }
  }

  lemma ChainFacts(nodes0: seq<CfgNode>, edges0: seq<Edge>, last0: Id, c0: nat, labels: seq<string>, kind: NodeType,
                   nodes: seq<CfgNode>, edges: seq<Edge>, last: Id)
    requires Partial(nodes0, edges0, c0) && last0 in Ids(nodes0)
    requires kind == StatementNode || kind == ConditionNode
    requires nodes == nodes0 + NewNodes(c0, labels, kind)
    requires edges == edges0 + ChainEdges(last0, c0, |labels|)
    requires last == if labels == [] then last0 else c0 + |labels| - 1
    ensures Grown(nodes0, edges0, nodes, edges, last0, c0, c0 + |labels|)
    ensures last in Ids(nodes)
  {
    var ns, es := NewNodes(c0, labels, kind), ChainEdges(last0, c0, |labels|);
    GrownByChain(nodes0, edges0, ns, es, last0, c0, kind);
    if labels != [] {
      ChainLastIn(nodes0, ns, last);
    }
  }

  lemma ChainLastIn(nodes0: seq<CfgNode>, ns: seq<CfgNode>, last: Id)
    requires ns != [] && ns[|ns| - 1].id == last
    ensures last in Ids(nodes0 + ns)
  {
    assert Ids(nodes0 + ns)[|nodes0| + |ns| - 1] == last;
  }

  /** Appending the nodes `ns`, with consecutive ids from `c0`, and the
      edges `es` that chain them below `last0` grows the graph. */
  lemma GrownByChain(nodes0: seq<CfgNode>, edges0: seq<Edge>, ns: seq<CfgNode>, es: seq<Edge>, last0: Id, c0: nat,
                     kind: NodeType)
    requires Partial(nodes0, edges0, c0) && last0 in Ids(nodes0)
    requires kind == StatementNode || kind == ConditionNode
    requires forall j :: 0 <= j < |ns| ==> ns[j].id == c0 + j && ns[j].next == [] && ns[j].kind == kind
    requires |es| == |ns| && forall k :: 0 <= k < |es| ==> es[k] == (if k == 0 then last0 else c0 + k - 1, c0 + k)
    ensures Grown(nodes0, edges0, nodes0 + ns, edges0 + es, last0, c0, c0 + |ns|)
  {
    IdBelow(nodes0, edges0, c0, last0);
    ChainNodesOk(nodes0, ns, c0, kind);
    ChainEdgesOk(nodes0, edges0, ns, es, last0, c0);
  }

  lemma IdBelow(nodes: seq<CfgNode>, edges: seq<Edge>, bound: nat, x: Id)
    requires Partial(nodes, edges, bound) && x in Ids(nodes)
    ensures x < bound
  {
    var i :| 0 <= i < |nodes| && Ids(nodes)[i] == x;
  }

  /** The node half of `Grown` for a chain: the new ids come after every old
      one, one apart. */
  lemma ChainNodesOk(nodes0: seq<CfgNode>, ns: seq<CfgNode>, c0: nat, kind: NodeType)
    requires forall i :: 0 <= i < |nodes0| ==> nodes0[i].id < c0 && nodes0[i].next == []
    requires forall i, j :: 0 <= i < j < |nodes0| ==> nodes0[i].id != nodes0[j].id
    requires forall j :: 0 <= j < |ns| ==> ns[j].id == c0 + j && ns[j].next == [] && ns[j].kind == kind
    requires kind == StatementNode || kind == ConditionNode
    ensures forall i :: 0 <= i < |nodes0 + ns| ==> (nodes0 + ns)[i].id < c0 + |ns| && (nodes0 + ns)[i].next == []
    ensures forall i, j :: 0 <= i < j < |nodes0 + ns| ==> (nodes0 + ns)[i].id != (nodes0 + ns)[j].id
    ensures (nodes0 + ns)[..|nodes0|] == nodes0
    ensures forall i :: |nodes0| <= i < |nodes0 + ns| ==>
              c0 <= (nodes0 + ns)[i].id && ((nodes0 + ns)[i].kind == StatementNode || (nodes0 + ns)[i].kind == ConditionNode)
  {
    var n := nodes0 + ns;
    assert n[..|nodes0|] == nodes0;
    forall i | 0 <= i < |n| ensures n[i].id < c0 + |ns| && n[i].next == [] {
      if i >= |nodes0| {
        assert n[i] == ns[i - |nodes0|];
      }
    }
    forall i, j | 0 <= i < j < |n| ensures n[i].id != n[j].id {
      if j >= |nodes0| {
        assert n[j] == ns[j - |nodes0|];
        if i >= |nodes0| {
          assert n[i] == ns[i - |nodes0|];
        }
      }
    }
    forall i | |nodes0| <= i < |n| ensures c0 <= n[i].id && (n[i].kind == StatementNode || n[i].kind == ConditionNode) {
      assert n[i] == ns[i - |nodes0|];
    }
  }

  /** The edge half of `Grown` for a chain: each new edge joins two nodes of
      the graph, leads to a newer node, and starts at `last0` or at a new
      node. */
  lemma ChainEdgesOk(nodes0: seq<CfgNode>, edges0: seq<Edge>, ns: seq<CfgNode>, es: seq<Edge>, last0: Id, c0: nat)
    requires forall k :: 0 <= k < |edges0| ==> edges0[k].0 in Ids(nodes0) && edges0[k].1 in Ids(nodes0)
    requires forall k :: 0 <= k < |edges0| ==> edges0[k].0 < edges0[k].1
    requires last0 in Ids(nodes0) && last0 < c0
    requires forall j :: 0 <= j < |ns| ==> ns[j].id == c0 + j
    requires |es| == |ns| && forall k :: 0 <= k < |es| ==> es[k] == (if k == 0 then last0 else c0 + k - 1, c0 + k)
    ensures forall k :: 0 <= k < |edges0 + es| ==>
              (edges0 + es)[k].0 in Ids(nodes0 + ns) && (edges0 + es)[k].1 in Ids(nodes0 + ns)
    ensures forall k :: 0 <= k < |edges0 + es| ==> (edges0 + es)[k].0 < (edges0 + es)[k].1
    ensures (edges0 + es)[..|edges0|] == edges0
    ensures forall k :: |edges0| <= k < |edges0 + es| ==> c0 <= (edges0 + es)[k].1
    ensures forall k :: |edges0| <= k < |edges0 + es| ==> (edges0 + es)[k].0 == last0 || c0 <= (edges0 + es)[k].0
  {
    var e := edges0 + es;
    var ids := Ids(nodes0 + ns);
    IdsAppend(nodes0, ns);
    assert e[..|edges0|] == edges0;
    forall k | 0 <= k < |e| ensures e[k].0 in ids && e[k].1 in ids && e[k].0 < e[k].1 {
      if k < |edges0| {
        assert e[k] == edges0[k];
      } else {
        var j := k - |edges0|;
        assert e[k] == es[j];
        assert ids[|nodes0| + j] == c0 + j;
        if j > 0 {
          assert ids[|nodes0| + j - 1] == c0 + j - 1;
        }
      }
    }
    forall k | |edges0| <= k < |e| ensures c0 <= e[k].1 && (e[k].0 == last0 || c0 <= e[k].0) {
      assert e[k] == es[k - |edges0|];
    }
  }

  /** The loop of `AppendChain`. */
  method ChainLoop(nodes0: seq<CfgNode>, edges0: seq<Edge>, last0: Id, labels: seq<string>, kind: NodeType,
                   ids: UuidSource)
    returns (nodes: seq<CfgNode>, edges: seq<Edge>, last: Id)
    modifies ids
    ensures ids.counter == old(ids.counter) + |labels|
    ensures nodes == nodes0 + NewNodes(old(ids.counter), labels, kind)
    ensures edges == edges0 + ChainEdges(last0, old(ids.counter), |labels|)
    ensures last == if labels == [] then last0 else old(ids.counter) + |labels| - 1
  {
    ghost var c0 := ids.counter;
    nodes, edges, last := nodes0, edges0, last0;
    for i := 0 to |labels|
      invariant ids.counter == c0 + i
      invariant nodes == nodes0 + NewNodes(c0, labels[..i], kind)
      invariant edges == edges0 + ChainEdges(last0, c0, i)
      invariant last == if i == 0 then last0 else c0 + i - 1
    {
      NewNodesSnoc(c0, labels, i, kind);
      ChainEdgesSnoc(last0, c0, i, last);
      var id := ids.Fresh();
      nodes := nodes + [CfgNode(id, labels[i], kind, [])];
      edges := edges + [(last, id)];
      last := id;
    }
    assert labels[..|labels|] == labels;
  }

  /** A chain appended to a chain is a chain. */
  lemma ChainExtend(nodes0: seq<CfgNode>, edges0: seq<Edge>, last0: Id, c0: nat, labels: seq<string>, kind: NodeType)
    requires ChainSoFar(nodes0, edges0, last0)
    ensures ChainSoFar(nodes0 + NewNodes(c0, labels, kind), edges0 + ChainEdges(last0, c0, |labels|),
                       if labels == [] then last0 else c0 + |labels| - 1)
  {
    var nodes := nodes0 + NewNodes(c0, labels, kind);
    var edges := edges0 + ChainEdges(last0, c0, |labels|);
    assert ChainOrder(nodes) == ChainOrder(nodes0) + NewNodes(c0, labels, kind);
    var order := ChainOrder(nodes);
    forall k | 0 <= k < |edges| ensures edges[k] == (order[k].id, order[k + 1].id) {
      if k < |edges0| {
        assert edges[k] == edges0[k];
        assert order[k] == ChainOrder(nodes0)[k] && order[k + 1] == ChainOrder(nodes0)[k + 1];
      } else if k == |edges0| {
        assert order[k] == ChainOrder(nodes0)[|nodes0| - 2];
      }
    }
  }

  // ---------------------------------------------------------------------
  // processConditionTree
  // ---------------------------------------------------------------------

  /** The labels of a then branch: `stmt.type || then_stmt_${idx}`. */
  function ThenLabels(block: seq<Cond>): (r: seq<string>)
    ensures |r| == |block|
  {
    seq(|block|, i requires 0 <= i < |block| => Or(block[i].kind, Numbered("then_stmt_", i)))
  }

  /** `processConditionTree(tree, nodes, edges, parentId, endId)`: adds the
      condition node (linked from `parentId`) and the then and else branches
      below it, and returns the exits of the tree. An else-if stored as an
      object has no `length`, so it is taken as no else branch. */
  method ProcessConditionTree(tree: Cond, nodes0: seq<CfgNode>, edges0: seq<Edge>, parentId: Id, endId: Id,
                              ids: UuidSource)
    returns (nodes: seq<CfgNode>, edges: seq<Edge>, exits: seq<Id>)
    requires Partial(nodes0, edges0, ids.counter) && parentId in Ids(nodes0)
    modifies ids
    ensures old(ids.counter) < ids.counter
    ensures Grown(nodes0, edges0, nodes, edges, parentId, old(ids.counter), ids.counter)
    ensures |nodes0| < |nodes| && |edges0| < |edges|
    ensures nodes[|nodes0|] == CfgNode(old(ids.counter), Or(tree.kind, "if"), ConditionNode, [])
    ensures edges[|edges0|] == (parentId, old(ids.counter))
    ensures |exits| >= 1
    ensures forall x :: x in exits ==> x in Ids(nodes) && old(ids.counter) <= x
    decreases tree, 1
  {
    ghost var c0 := ids.counter;
    var condId;
    nodes, edges, condId, exits := ConditionThen(tree, nodes0, edges0, parentId, ids);

    // The else branch.
    if tree.elseBlock.ElseList? && |tree.elseBlock.items| > 0 {
      ghost var (n2, e2, c2) := (nodes, edges, ids.counter);
      var elseExits;
      nodes, edges, elseExits := ProcessElse(tree, nodes, edges, condId, endId, ids);
      GrownTrans(nodes0, edges0, n2, e2, nodes, edges, parentId, condId, c0, c2, ids.counter);
      IdsGrow(n2, nodes);
      assert nodes[|nodes0|] == nodes[..|n2|][|nodes0|] && edges[|edges0|] == edges[..|e2|][|edges0|];
      exits := exits + elseExits;
    } else {
      exits := exits + [condId];
    }
  }

  /** The condition node of `processConditionTree`, linked from the parent,
      and the then chain below it; the single exit is the chain's last node,
      or the condition itself when the then block is empty. */
  method ConditionThen(tree: Cond, nodes0: seq<CfgNode>, edges0: seq<Edge>, parentId: Id, ids: UuidSource)
    returns (nodes: seq<CfgNode>, edges: seq<Edge>, condId: Id, exits: seq<Id>)
    requires Partial(nodes0, edges0, ids.counter) && parentId in Ids(nodes0)
    modifies ids
    ensures condId == old(ids.counter) < ids.counter
    ensures Grown(nodes0, edges0, nodes, edges, parentId, old(ids.counter), ids.counter)
    ensures |nodes0| < |nodes| && |edges0| < |edges|
    ensures nodes[|nodes0|] == CfgNode(condId, Or(tree.kind, "if"), ConditionNode, [])
    ensures edges[|edges0|] == (parentId, condId)
    ensures condId in Ids(nodes)
    ensures |exits| == 1 && exits[0] in Ids(nodes) && condId <= exits[0]
  {
    ghost var c0 := ids.counter;
    var condNode := CfgNode(ids.counter, Or(tree.kind, "if"), ConditionNode, []);
    GrownRefl(nodes0, edges0, parentId, c0);
    GrownAttach(nodes0, edges0, nodes0, edges0, parentId, c0, c0, parentId, condNode);
    condId := ids.Fresh();
    nodes := nodes0 + [condNode];
    edges := edges0 + [(parentId, condId)];
    ghost var (n1, e1) := (nodes, edges);
    assert condId in Ids(n1) by { assert Ids(n1)[|nodes0|] == condId; }

    var thenLastNode;
    nodes, edges, thenLastNode := AppendChain(nodes, edges, condId, ThenLabels(tree.thenBlock), StatementNode, ids);
    GrownTrans(nodes0, edges0, n1, e1, nodes, edges, parentId, condId, c0, c0 + 1, ids.counter);
    IdsGrow(n1, nodes);
    assert nodes[|nodes0|] == condNode && edges[|edges0|] == (parentId, condId);
    if |tree.thenBlock| > 0 {
      exits := [thenLastNode];
    } else {
      exits := [condId];
    }
  }

  /** The else branch of `processConditionTree`, an array of entries: a
      nested IfStatement becomes a condition tree below `condId` whose exits
      are collected; any other entry extends the else chain. */
  method ProcessElse(tree: Cond, nodes0: seq<CfgNode>, edges0: seq<Edge>, condId: Id, endId: Id, ids: UuidSource)
    returns (nodes: seq<CfgNode>, edges: seq<Edge>, exits: seq<Id>)
    requires tree.elseBlock.ElseList?
    requires Partial(nodes0, edges0, ids.counter) && condId in Ids(nodes0)
    modifies ids
    ensures Grown(nodes0, edges0, nodes, edges, condId, old(ids.counter), ids.counter)
    ensures forall x :: x in exits ==> x in Ids(nodes) && old(ids.counter) <= x
    decreases tree, 0
  {
    ghost var c0 := ids.counter;
    var items := tree.elseBlock.items;
    nodes, edges, exits := nodes0, edges0, [];
    GrownRefl(nodes0, edges0, condId, c0);
    var elseLastNode := condId;
    for idx := 0 to |items|
      invariant Grown(nodes0, edges0, nodes, edges, condId, c0, ids.counter)
      invariant elseLastNode in Ids(nodes) && (elseLastNode == condId || c0 <= elseLastNode)
      invariant forall x :: x in exits ==> x in Ids(nodes) && c0 <= x
      invariant condId in Ids(nodes)
    {
      var stmt := items[idx];
      ghost var (n1, e1, c1) := (nodes, edges, ids.counter);
      if stmt.kind == IfStatementKind {
        var nestedExits;
        nodes, edges, nestedExits := ProcessConditionTree(stmt, nodes, edges, condId, endId, ids);
        GrownTrans(nodes0, edges0, n1, e1, nodes, edges, condId, condId, c0, c1, ids.counter);
        exits := exits + nestedExits;
      } else {
        var node := CfgNode(ids.counter, Or(stmt.kind, Numbered("else_stmt_", idx)), StatementNode, []);
        GrownAttach(nodes0, edges0, nodes, edges, condId, c0, ids.counter, elseLastNode, node);
        var stmtId := ids.Fresh();
        nodes := nodes + [node];
        edges := edges + [(elseLastNode, stmtId)];
        elseLastNode := stmtId;
        assert nodes[..|n1|] == n1;
      }
      IdsGrow(n1, nodes);
    }
    if elseLastNode != condId {
      exits := exits + [elseLastNode];
    }
  }

  // ---------------------------------------------------------------------
  // The `next` lists
  // ---------------------------------------------------------------------

  /** The targets of the edges leaving `u`, in edge order. */
  function Targets(edges: seq<Edge>, u: Id): seq<Id>
  {
    if edges == [] then []
    else
      var e := edges[|edges| - 1];
      Targets(edges[..|edges| - 1], u) + (if e.0 == u then [e.1] else [])
  }

  /** `list` after `if (!list.includes(x)) list.push(x)` for each `x` of `xs`. */
  function Extend(list: seq<Id>, xs: seq<Id>): seq<Id>
  {
    if xs == [] then list
    else
      var l := Extend(list, xs[..|xs| - 1]);
      if xs[|xs| - 1] in l then l else l + [xs[|xs| - 1]]
  }

  lemma ExtendSnoc(list: seq<Id>, xs: seq<Id>, y: Id)
    ensures Extend(list, xs + [y]) == if y in Extend(list, xs) then Extend(list, xs) else Extend(list, xs) + [y]
  {
    assert (xs + [y])[..|xs|] == xs;
  }

  /** Filling an empty list that way de-duplicates in order of first
      occurrence. */
  lemma {:induction false} ExtendEmpty(xs: seq<Id>)
    ensures Extend([], xs) == Distinct(xs)
  {
    if xs != [] {
      ExtendEmpty(xs[..|xs| - 1]);
    }
  }

  /** The index of the first node with id `x` (`nodes.find`). */
  function FindById(nodes: seq<CfgNode>, x: Id): (r: Option<nat>)
    ensures r.Some? ==> r.value < |nodes| && nodes[r.value].id == x
    ensures r.None? ==> x !in Ids(nodes)
  {
    if nodes == [] then None
    else if nodes[0].id == x then Some(0)
    else
      match FindById(nodes[1..], x)
      case Some(i) => Some(i + 1)
      case None =>
        assert forall i :: 1 <= i < |nodes| ==> Ids(nodes)[i] == Ids(nodes[1..])[i - 1];
        None
  }

  /** The "connect next references" loop: each edge `(from, to)` appends `to`
      to the `next` list of the node with id `from`, unless already there. */
  method ConnectNext(nodes0: seq<CfgNode>, edges: seq<Edge>) returns (nodes: seq<CfgNode>)
    requires forall i, j :: 0 <= i < j < |nodes0| ==> nodes0[i].id != nodes0[j].id
    ensures |nodes| == |nodes0|
    ensures forall i :: 0 <= i < |nodes| ==>
              nodes[i] == nodes0[i].(next := Extend(nodes0[i].next, Targets(edges, nodes0[i].id)))
  {
    nodes := nodes0;
    for k := 0 to |edges|
      invariant |nodes| == |nodes0|
      invariant forall i :: 0 <= i < |nodes| ==>
                  nodes[i] == nodes0[i].(next := Extend(nodes0[i].next, Targets(edges[..k], nodes0[i].id)))
    {
      assert edges[..k + 1][..k] == edges[..k];
      var (from, to) := edges[k];
      ghost var prev := nodes;
      var found := FindById(nodes, from);
      if found.Some? && to !in nodes[found.value].next {
        var j := found.value;
        nodes := nodes[j := nodes[j].(next := nodes[j].next + [to])];
      }
      forall i | 0 <= i < |nodes|
        ensures nodes[i] == nodes0[i].(next := Extend(nodes0[i].next, Targets(edges[..k + 1], nodes0[i].id)))
      {
        var x := nodes0[i].id;
        assert Targets(edges[..k + 1], x) == Targets(edges[..k], x) + (if from == x then [to] else []);
        if from == x {
          assert found.Some? && found.value == i;
          ExtendSnoc(nodes0[i].next, Targets(edges[..k], x), to);
          assert Targets(edges[..k + 1], x) == Targets(edges[..k], x) + [to];
        } else {
          assert nodes[i] == prev[i];
          assert Targets(edges[..k + 1], x) == Targets(edges[..k], x);
        }
      }
    }
    assert edges[..|edges|] == edges;
  }

  // ---------------------------------------------------------------------
  // buildCFG
  // ---------------------------------------------------------------------

  function StatementLabels(stmts: seq<StmtInfo>): (r: seq<string>)
    ensures |r| == |stmts|
  {
    seq(|stmts|, i requires 0 <= i < |stmts| => Or(stmts[i].name, Or(stmts[i].kind, Numbered("stmt_", i))))
  }

  function OrEach(labels: seq<string>, fallback: string): (r: seq<string>)
    ensures |r| == |labels|
  {
    seq(|labels|, i requires 0 <= i < |labels| => Or(labels[i], fallback))
  }

  function ChainLabels(chains: seq<Chain>): (r: seq<string>)
    ensures |r| == |chains|
  {
    seq(|chains|, i requires 0 <= i < |chains| => ChainLabel(chains[i]))
  }

  /** The labels of a method graph without an if tree, along its chain. */
  function ChainLabelsOf(m: MethodInput): seq<string>
  {
    ["Start"] + StatementLabels(Statements(m)) + OrEach(m.loops, "loop") + OrEach(m.conditionals, "cond")
    + ChainLabels(m.constructorChaining) + ["End"]
  }

  function Labels(nodes: seq<CfgNode>): (r: seq<string>)
    ensures |r| == |nodes|
  {
    seq(|nodes|, i requires 0 <= i < |nodes| => nodes[i].labelText)
  }

  /** A finished method or class graph: exactly one Start node (the first)
      and one End node (the second), pairwise distinct ids from `[c0, c1)`,
      every edge between two of its nodes, one edge fewer than nodes, a last
      edge into End, every other edge leading to a newer id, nothing leaving
      End, and each `next` list the distinct targets of the node's edges. */
  ghost predicate Built(cfg: Cfg, c0: nat, c1: nat)
  {
    var nodes, edges := cfg.nodes, cfg.edges;
    |nodes| >= 2 && nodes[0].kind == StartNode && nodes[1].kind == EndNode
    && (forall i :: 2 <= i < |nodes| ==> nodes[i].kind != StartNode && nodes[i].kind != EndNode)
    && (forall i :: 0 <= i < |nodes| ==> c0 <= nodes[i].id < c1)
    && (forall i, j :: 0 <= i < j < |nodes| ==> nodes[i].id != nodes[j].id)
    && (forall k :: 0 <= k < |edges| ==> edges[k].0 in Ids(nodes) && edges[k].1 in Ids(nodes))
    && |edges| == |nodes| - 1
    && edges[|edges| - 1].1 == nodes[1].id
    && (forall k :: 0 <= k < |edges| ==> edges[k].0 != nodes[1].id)
    && (forall k :: 0 <= k < |edges| - 1 ==> edges[k].0 < edges[k].1)
    && (forall i :: 0 <= i < |nodes| ==> nodes[i].next == Distinct(Targets(edges, nodes[i].id)))
  }

  /** The state of `buildCFG` before its final edge: Start and End first,
      every later node newer than End and of kind statement or condition,
      one edge per later node, no edge into or out of End, and the current
      last node a node other than End. */
  ghost predicate Building(nodes: seq<CfgNode>, edges: seq<Edge>, startId: Id, endId: Id, last: Id, bound: nat)
  {
    Partial(nodes, edges, bound)
    && |nodes| >= 2
    && nodes[0] == CfgNode(startId, "Start", StartNode, []) && nodes[1] == CfgNode(endId, "End", EndNode, [])
    && startId < endId < bound
    && (forall i :: 2 <= i < |nodes| ==>
          endId < nodes[i].id && (nodes[i].kind == StatementNode || nodes[i].kind == ConditionNode))
    && |edges| == |nodes| - 2
    && (forall k :: 0 <= k < |edges| ==> edges[k].0 != endId && endId < edges[k].1)
    && last in Ids(nodes) && last != endId
  }

  lemma BuildingStep(n0: seq<CfgNode>, e0: seq<Edge>, n: seq<CfgNode>, e: seq<Edge>,
                     startId: Id, endId: Id, last0: Id, last: Id, c: nat, bound: nat)
    requires Building(n0, e0, startId, endId, last0, c)
    requires Grown(n0, e0, n, e, last0, c, bound)
    requires last in Ids(n) && last != endId
    ensures Building(n, e, startId, endId, last, bound)
  {
    assert n[0] == n[..|n0|][0] && n[1] == n[..|n0|][1];
    forall i | 2 <= i < |n|
      ensures endId < n[i].id && (n[i].kind == StatementNode || n[i].kind == ConditionNode)
    {
      if i < |n0| {
        assert n[i] == n[..|n0|][i];
      }
    }
    forall k | 0 <= k < |e| ensures e[k].0 != endId && endId < e[k].1 {
      if k < |e0| {
        assert e[k] == e[..|e0|][k];
      }
    }
    assert startId < endId < bound by {
      assert Ids(n)[1] == endId;
    }
  }

  /** Adding the final edge into End and filling the `next` lists completes
      a graph under construction. */
  lemma FinishBuild(nodes: seq<CfgNode>, edges: seq<Edge>, startId: Id, endId: Id, last: Id, c0: nat, bound: nat,
                    name: string, connected: seq<CfgNode>)
    requires Building(nodes, edges, startId, endId, last, bound) && c0 <= startId
    requires |connected| == |nodes|
    requires forall i :: 0 <= i < |nodes| ==>
               connected[i] == nodes[i].(next := Distinct(Targets(edges + [(last, endId)], nodes[i].id)))
    ensures Built(Cfg(name, connected, edges + [(last, endId)]), c0, bound)
  {
    var edges' := edges + [(last, endId)];
    FinishedNodes(nodes, edges', endId, c0, bound, connected);
    FinishedEdges(nodes, edges, last, endId);
  }

  /** The finished nodes: the kinds, ids and `next` lists `Built` asks for. */
  lemma FinishedNodes(nodes: seq<CfgNode>, edges': seq<Edge>, endId: Id, c0: nat, bound: nat, connected: seq<CfgNode>)
    requires |connected| == |nodes| >= 2
    requires nodes[0].kind == StartNode && nodes[1].kind == EndNode && c0 <= nodes[0].id < endId == nodes[1].id
    requires forall i :: 2 <= i < |nodes| ==>
               endId < nodes[i].id && (nodes[i].kind == StatementNode || nodes[i].kind == ConditionNode)
    requires forall i :: 0 <= i < |nodes| ==> nodes[i].id < bound
    requires forall i, j :: 0 <= i < j < |nodes| ==> nodes[i].id != nodes[j].id
    requires forall i :: 0 <= i < |nodes| ==> connected[i] == nodes[i].(next := Distinct(Targets(edges', nodes[i].id)))
    ensures connected[0].kind == StartNode && connected[1].kind == EndNode
    ensures forall i :: 2 <= i < |connected| ==> connected[i].kind != StartNode && connected[i].kind != EndNode
    ensures forall i :: 0 <= i < |connected| ==> c0 <= connected[i].id < bound
    ensures forall i, j :: 0 <= i < j < |connected| ==> connected[i].id != connected[j].id
    ensures forall i :: 0 <= i < |connected| ==> connected[i].next == Distinct(Targets(edges', connected[i].id))
    ensures Ids(connected) == Ids(nodes)
  {
    forall i | 0 <= i < |nodes|
      ensures connected[i].id == nodes[i].id && connected[i].kind == nodes[i].kind
    {
    }
    forall i | 0 <= i < |connected| ensures c0 <= connected[i].id < bound {
      if i >= 2 {
        assert endId < nodes[i].id;
      }
    }
  }

  /** The finished edges: the edges of the graph under construction and the
      final one into End. */
  lemma FinishedEdges(nodes: seq<CfgNode>, edges: seq<Edge>, last: Id, endId: Id)
    requires |nodes| >= 2 && nodes[1].id == endId && |edges| == |nodes| - 2
    requires forall k :: 0 <= k < |edges| ==> edges[k].0 in Ids(nodes) && edges[k].1 in Ids(nodes)
    requires forall k :: 0 <= k < |edges| ==> edges[k].0 < edges[k].1
    requires forall k :: 0 <= k < |edges| ==> edges[k].0 != endId
    requires last in Ids(nodes) && last != endId
    ensures var edges' := edges + [(last, endId)];
            (forall k :: 0 <= k < |edges'| ==> edges'[k].0 in Ids(nodes) && edges'[k].1 in Ids(nodes))
            && |edges'| == |nodes| - 1 && edges'[|edges'| - 1].1 == endId
            && (forall k :: 0 <= k < |edges'| ==> edges'[k].0 != endId)
            && (forall k :: 0 <= k < |edges'| - 1 ==> edges'[k].0 < edges'[k].1)
  {
    var edges' := edges + [(last, endId)];
    assert Ids(nodes)[1] == endId;
    forall k | 0 <= k < |edges'|
      ensures edges'[k].0 in Ids(nodes) && edges'[k].1 in Ids(nodes) && edges'[k].0 != endId
    {
      if k < |edges| {
        assert edges'[k] == edges[k];
      }
    }
    forall k | 0 <= k < |edges'| - 1 ensures edges'[k].0 < edges'[k].1 {
      assert edges'[k] == edges[k];
    }
  }

  /** With no if tree the finished graph is the chain Start, the added nodes
      in order, End. */
  lemma FinishChain(nodes: seq<CfgNode>, edges: seq<Edge>, last: Id, connected: seq<CfgNode>)
    requires ChainSoFar(nodes, edges, last)
    requires |connected| == |nodes|
    requires forall i :: 0 <= i < |nodes| ==>
               connected[i].id == nodes[i].id && connected[i].labelText == nodes[i].labelText
    ensures var order := [connected[0]] + connected[2..] + [connected[1]];
            |order| == |edges| + 2
            && (forall k :: 0 <= k < |edges| + 1 ==>
                 (edges + [(last, nodes[1].id)])[k] == (order[k].id, order[k + 1].id))
            && Labels(order) == [nodes[0].labelText] + Labels(nodes[2..]) + [nodes[1].labelText]
  {
    var order := [connected[0]] + connected[2..] + [connected[1]];
    forall k | 0 <= k < |edges| + 1
      ensures (edges + [(last, nodes[1].id)])[k] == (order[k].id, order[k + 1].id)
    {
      if k < |edges| {
        assert ChainOrder(nodes)[k].id == order[k].id && ChainOrder(nodes)[k + 1].id == order[k + 1].id;
      } else {
        assert ChainOrder(nodes)[|nodes| - 2].id == order[k].id;
      }
    }
  }

  /** The labels after the End node grow by the labels appended. */
  lemma LabelsAppended(n0: seq<CfgNode>, n: seq<CfgNode>, labels: seq<string>)
    requires |n0| >= 2 && |n| == |n0| + |labels| && n[..|n0|] == n0
    requires forall i :: 0 <= i < |labels| ==> n[|n0| + i].labelText == labels[i]
    ensures Labels(n[2..]) == Labels(n0[2..]) + labels
  {
    forall i | 0 <= i < |n| - 2 ensures Labels(n[2..])[i] == (Labels(n0[2..]) + labels)[i] {
      if i + 2 < |n0| {
        assert n[i + 2] == n[..|n0|][i + 2];
      }
    }
  }

  /** One of the chain loops of `buildCFG`, on a graph under construction. */
  method BuildChain(nodes0: seq<CfgNode>, edges0: seq<Edge>, last0: Id, labels: seq<string>, kind: NodeType,
                    startId: Id, endId: Id, ids: UuidSource)
    returns (nodes: seq<CfgNode>, edges: seq<Edge>, last: Id)
    requires Building(nodes0, edges0, startId, endId, last0, ids.counter)
    requires kind == StatementNode || kind == ConditionNode
    modifies ids
    ensures Building(nodes, edges, startId, endId, last, ids.counter)
    ensures |nodes| == |nodes0| + |labels|
    ensures Labels(nodes[2..]) == Labels(nodes0[2..]) + labels
    ensures ChainSoFar(nodes0, edges0, last0) ==> ChainSoFar(nodes, edges, last)
  {
    ghost var c0 := ids.counter;
    nodes, edges, last := AppendChain(nodes0, edges0, last0, labels, kind, ids);
    BuildChainFacts(nodes0, edges0, last0, c0, labels, kind, startId, endId, nodes, edges, last, ids.counter);
  }

  lemma BuildChainFacts(nodes0: seq<CfgNode>, edges0: seq<Edge>, last0: Id, c0: nat, labels: seq<string>,
                        kind: NodeType, startId: Id, endId: Id, nodes: seq<CfgNode>, edges: seq<Edge>, last: Id,
                        bound: nat)
    requires Building(nodes0, edges0, startId, endId, last0, c0)
    requires Grown(nodes0, edges0, nodes, edges, last0, c0, bound)
    requires nodes == nodes0 + NewNodes(c0, labels, kind)
    requires last in Ids(nodes) && last == if labels == [] then last0 else c0 + |labels| - 1
    ensures Building(nodes, edges, startId, endId, last, bound)
    ensures |nodes| == |nodes0| + |labels|
    ensures Labels(nodes[2..]) == Labels(nodes0[2..]) + labels
  {
    BuildingStep(nodes0, edges0, nodes, edges, startId, endId, last0, last, c0, bound);
    LabelsAppended(nodes0, nodes, labels);
  }

  /** The if-tree loop of `buildCFG`: each tree hangs below the current last
      node, and the last exit not already linked to End becomes the new last
      node. */
  method BuildTrees(nodes0: seq<CfgNode>, edges0: seq<Edge>, last0: Id, trees: seq<Cond>, startId: Id, endId: Id,
                    ids: UuidSource)
    returns (nodes: seq<CfgNode>, edges: seq<Edge>, last: Id)
    requires Building(nodes0, edges0, startId, endId, last0, ids.counter)
    modifies ids
    ensures Building(nodes, edges, startId, endId, last, ids.counter)
    ensures |nodes| >= |nodes0| + |trees|
    ensures trees == [] ==> nodes == nodes0 && edges == edges0 && last == last0
  {
    nodes, edges, last := nodes0, edges0, last0;
    for t := 0 to |trees|
      invariant Building(nodes, edges, startId, endId, last, ids.counter)
      invariant |nodes| >= |nodes0| + t
      invariant t == 0 ==> nodes == nodes0 && edges == edges0 && last == last0
    {
      ghost var (n1, e1, l1, c1) := (nodes, edges, last, ids.counter);
      var exits;
      nodes, edges, exits := ProcessConditionTree(trees[t], nodes, edges, last, endId, ids);
      for x := 0 to |exits|
        invariant last in Ids(nodes) && last != endId
      {
        if (exits[x], endId) !in edges {
          last := exits[x];
        }
      }
      BuildingStep(n1, e1, nodes, edges, startId, endId, l1, last, c1, ids.counter);
    }
  }

  /** The graph `buildCFG` starts from: Start and End, no edge. */
  lemma InitialGraph(startId: Id, endId: Id, bound: nat)
    requires startId < endId < bound
    ensures var nodes := [CfgNode(startId, "Start", StartNode, []), CfgNode(endId, "End", EndNode, [])];
            Building(nodes, [], startId, endId, startId, bound) && ChainSoFar(nodes, [], startId)
  {
    var nodes := [CfgNode(startId, "Start", StartNode, []), CfgNode(endId, "End", EndNode, [])];
    assert Ids(nodes) == [startId, endId];
  }

  /** `buildCFG(method)`: a built graph (see `MethodCfgOf`) with Start and
      End first, one node per statement, loop, conditional, if tree and
      constructor-chaining entry, and, without if trees, one chain from
      Start through those nodes in that order into End. */
  method BuildCfg(m: MethodInput, ids: UuidSource) returns (cfg: Cfg)
    modifies ids
    ensures MethodCfgOf(cfg, m, old(ids.counter), ids.counter)
  {
    ghost var c0 := ids.counter;
    var startId := ids.Fresh();
    var endId := ids.Fresh();
    var nodes := [CfgNode(startId, "Start", StartNode, []), CfgNode(endId, "End", EndNode, [])];
    var edges: seq<Edge> := [];
    var lastNodeId := startId;
    InitialGraph(startId, endId, ids.counter);
    assert Labels(nodes[2..]) == [];
    nodes, edges, lastNodeId := BuildBody(m, nodes, edges, lastNodeId, startId, endId, ids);
    cfg := FinishCfg(Or(m.name, "anonymous"), nodes, edges, lastNodeId, startId, endId, c0, ids.counter);
    Bracket(["Start"], StatementLabels(Statements(m)), OrEach(m.loops, "loop"), OrEach(m.conditionals, "cond"),
            ChainLabels(m.constructorChaining), ["End"]);
  }

  lemma Bracket<T>(s: seq<T>, a: seq<T>, b: seq<T>, c: seq<T>, d: seq<T>, e: seq<T>)
    ensures s + (a + b + c + d) + e == s + a + b + c + d + e
  {
  }

  /** The nodes `buildCFG` adds between Start and End, in its order:
      statements, loops, conditionals, if trees, constructor chaining. */
  method BuildBody(m: MethodInput, nodes0: seq<CfgNode>, edges0: seq<Edge>, last0: Id, startId: Id, endId: Id,
                   ids: UuidSource)
    returns (nodes: seq<CfgNode>, edges: seq<Edge>, last: Id)
    requires Building(nodes0, edges0, startId, endId, last0, ids.counter)
    requires ChainSoFar(nodes0, edges0, last0) && Labels(nodes0[2..]) == []
    modifies ids
    ensures Building(nodes, edges, startId, endId, last, ids.counter)
    ensures |nodes| >= |nodes0| + |Statements(m)| + |m.loops| + |m.conditionals| + |m.conditionalsTree|
                       + |m.constructorChaining|
    ensures m.conditionalsTree == [] ==>
              |nodes| == |nodes0| + |Statements(m)| + |m.loops| + |m.conditionals| + |m.constructorChaining|
              && ChainSoFar(nodes, edges, last)
              && Labels(nodes[2..]) == StatementLabels(Statements(m)) + OrEach(m.loops, "loop")
                                       + OrEach(m.conditionals, "cond") + ChainLabels(m.constructorChaining)
  {
    var a, b, c, d := StatementLabels(Statements(m)), OrEach(m.loops, "loop"), OrEach(m.conditionals, "cond"),
                      ChainLabels(m.constructorChaining);
    var n1, e1, l1 := BuildChain(nodes0, edges0, last0, a, StatementNode, startId, endId, ids);
    var n2, e2, l2 := BuildChain(n1, e1, l1, b, StatementNode, startId, endId, ids);
    var n3, e3, l3 := BuildChain(n2, e2, l2, c, ConditionNode, startId, endId, ids);
    var n4, e4, l4 := BuildTrees(n3, e3, l3, m.conditionalsTree, startId, endId, ids);
    nodes, edges, last := BuildChain(n4, e4, l4, d, StatementNode, startId, endId, ids);
    if m.conditionalsTree == [] {
      ConcatFour(Labels(nodes0[2..]), Labels(n1[2..]), Labels(n2[2..]), Labels(n3[2..]), Labels(nodes[2..]), a, b, c, d);
    }
  }

  lemma ConcatFour<T>(x0: seq<T>, x1: seq<T>, x2: seq<T>, x3: seq<T>, x4: seq<T>, a: seq<T>, b: seq<T>, c: seq<T>,
                      d: seq<T>)
    requires x0 == [] && x1 == x0 + a && x2 == x1 + b && x3 == x2 + c && x4 == x3 + d
    ensures x4 == a + b + c + d
  {
    assert x1 == a;
  }

  /** The end of `buildCFG`: the final edge from the last node into End, then
      the `next` lists. */
  method FinishCfg(name: string, nodes0: seq<CfgNode>, edges0: seq<Edge>, last: Id, startId: Id, endId: Id,
                   ghost c0: nat, ghost bound: nat)
    returns (cfg: Cfg)
    requires Building(nodes0, edges0, startId, endId, last, bound) && c0 <= startId
    ensures Built(cfg, c0, bound)
    ensures cfg.methodName == name && |cfg.nodes| == |nodes0|
    ensures cfg.nodes[0].labelText == "Start" && cfg.nodes[1].labelText == "End"
    ensures ChainSoFar(nodes0, edges0, last) ==>
              var order := [cfg.nodes[0]] + cfg.nodes[2..] + [cfg.nodes[1]];
              Labels(order) == ["Start"] + Labels(nodes0[2..]) + ["End"]
              && forall k :: 0 <= k < |cfg.edges| ==> cfg.edges[k] == (order[k].id, order[k + 1].id)
  {
    var edges := edges0 + [(last, endId)];
    var nodes := ConnectNext(nodes0, edges);
    forall i | 0 <= i < |nodes| ensures nodes[i] == nodes0[i].(next := Distinct(Targets(edges, nodes0[i].id))) {
      ExtendEmpty(Targets(edges, nodes0[i].id));
    }
    FinishBuild(nodes0, edges0, startId, endId, last, c0, bound, name, nodes);
    if ChainSoFar(nodes0, edges0, last) {
      FinishChain(nodes0, edges0, last, nodes);
    }
    cfg := Cfg(name, nodes, edges);
  }

  // ---------------------------------------------------------------------
  // What the analyzer reads from a built graph
  // ---------------------------------------------------------------------

  /** The node `type` strings of the graph types. */
  function KindName(k: NodeType): string
  {
    match k
    case StartNode => "start"
    case EndNode => "end"
    case StatementNode => "statement"
    case ConditionNode => "condition"
  }

  /** A built graph as the analyzer reads it. */
  function ToAnalyzer(cfg: Cfg): (r: CfgAnalyzer.Cfg)
    ensures r.nodes.Some? && r.edges.Some? && |r.nodes.value| == |cfg.nodes| && r.edges.value == cfg.edges
  {
    CfgAnalyzer.Cfg(
      Some(seq(|cfg.nodes|, i requires 0 <= i < |cfg.nodes| =>
        CfgAnalyzer.CfgNode(cfg.nodes[i].id, cfg.nodes[i].labelText, KindName(cfg.nodes[i].kind)))),
      Some(cfg.edges))
  }

  /** A method graph is a tree plus nothing: its cyclomatic complexity is 1
      whatever the method contains. */
  lemma BuiltCyclomaticOne(cfg: Cfg, c0: nat, c1: nat)
    requires Built(cfg, c0, c1)
    ensures CfgAnalyzer.ComputeCyclomatic(Some(ToAnalyzer(cfg))) == 1
  {
  }

  /** Ids strictly increase along a path of forward edges. */
  lemma {:induction false} ForwardPath(p: seq<Id>, n: nat)
    requires 1 <= n <= |p|
    requires forall k :: 0 <= k < |p| - 1 ==> p[k] < p[k + 1]
    ensures p[0] + n - 1 <= p[n - 1]
  {
    if n > 1 {
      ForwardPath(p, n - 1);
    }
  }

  /** A built method graph has no directed cycle: nothing leaves End, and
      every edge that does not enter End leads to a newer id. */
  lemma BuiltAcyclic(cfg: Cfg, c0: nat, c1: nat)
    requires Built(cfg, c0, c1)
    ensures forall p :: !CfgAnalyzer.EdgeCycle(cfg.edges, p)
  {
    ForwardAcyclic(cfg.edges, cfg.nodes[1].id);
  }

  /** Edges that lead forward, except a last one into a node nothing leaves,
      close no cycle. */
  lemma ForwardAcyclic(edges: seq<Edge>, endId: Id)
    requires |edges| >= 1 && edges[|edges| - 1].1 == endId
    requires forall k :: 0 <= k < |edges| ==> edges[k].0 != endId
    requires forall k :: 0 <= k < |edges| - 1 ==> edges[k].0 < edges[k].1
    ensures forall p :: !CfgAnalyzer.EdgeCycle(edges, p)
  {
    forall p | CfgAnalyzer.EdgeCycle(edges, p) ensures false {
      // No id on the cycle is End, since each one has an edge leaving it.
      forall j | 0 <= j < |p| ensures p[j] != endId {
        var e := if j < |p| - 1 then (p[j], p[j + 1]) else (p[|p| - 1], p[0]);
        var k :| 0 <= k < |edges| && edges[k] == e;
      }
      // So no edge of the cycle is the final one, and each leads forward.
      forall k | 0 <= k < |p| - 1 ensures p[k] < p[k + 1] {
        var i :| 0 <= i < |edges| && edges[i] == (p[k], p[k + 1]);
      }
      var i :| 0 <= i < |edges| && edges[i] == (p[|p| - 1], p[0]);
      ForwardPath(p, |p|);
    }
  }

  // ---------------------------------------------------------------------
  // buildClassCFG
  // ---------------------------------------------------------------------

  /** The index of the first node of kind `k` (`nodes.find(n => n.type === k)`). */
  function FindKind(nodes: seq<CfgNode>, k: NodeType): (r: Option<nat>)
    ensures r.Some? ==> r.value < |nodes| && nodes[r.value].kind == k
                        && forall j :: 0 <= j < r.value ==> nodes[j].kind != k
    ensures r.None? ==> forall j :: 0 <= j < |nodes| ==> nodes[j].kind != k
  {
    if nodes == [] then None
    else if nodes[0].kind == k then Some(0)
    else
      match FindKind(nodes[1..], k)
      case Some(i) => Some(i + 1)
      case None => None
  }

  /** The label rewrite `${class}.${method} → ${label}` applied to every node. */
  function Relabel(nodes: seq<CfgNode>, prefix: string): (r: seq<CfgNode>)
    ensures |r| == |nodes|
    ensures forall i :: 0 <= i < |nodes| ==> r[i] == nodes[i].(labelText := prefix + nodes[i].labelText)
  {
    seq(|nodes|, i requires 0 <= i < |nodes| => nodes[i].(labelText := prefix + nodes[i].labelText))
  }

  /** The shape of a class graph: the class Start and End first, and after
      them each method graph as a block whose first node is its Start and
      whose second is its End; `starts` lists where the blocks begin, in
      order. */
  ghost predicate ClassShape(nodes: seq<CfgNode>, starts: seq<nat>)
  {
    |nodes| >= 2 && nodes[0].kind == StartNode && nodes[1].kind == EndNode
    && (forall i :: 0 <= i < |starts| ==>
          2 <= starts[i] && starts[i] + 1 < |nodes|
          && nodes[starts[i]].kind == StartNode && nodes[starts[i] + 1].kind == EndNode)
    && (forall i, j :: 0 <= i < j < |starts| ==> starts[i] < starts[j])
  }

  /** Where the link into the `i`-th method comes from: the class Start for
      the first method, the End of the previous method otherwise. */
  function LinkFrom(nodes: seq<CfgNode>, starts: seq<nat>, i: nat): Id
    requires ClassShape(nodes, starts) && i <= |starts|
  {
    if i == 0 then nodes[0].id else nodes[starts[i - 1] + 1].id
  }

  ghost predicate IdsIn(nodes: seq<CfgNode>, c0: nat, bound: nat)
  {
    forall i :: 0 <= i < |nodes| ==> c0 <= nodes[i].id < bound
  }

  ghost predicate DistinctIds(nodes: seq<CfgNode>)
  {
    forall i, j :: 0 <= i < j < |nodes| ==> nodes[i].id != nodes[j].id
  }

  ghost predicate EdgesIn(nodes: seq<CfgNode>, edges: seq<Edge>)
  {
    forall k :: 0 <= k < |edges| ==> edges[k].0 in Ids(nodes) && edges[k].1 in Ids(nodes)
  }

  /** Each method block is linked from the previous one. */
  ghost predicate Linked(nodes: seq<CfgNode>, edges: seq<Edge>, starts: seq<nat>)
  {
    ClassShape(nodes, starts)
    && forall i :: 0 <= i < |starts| ==> (LinkFrom(nodes, starts, i), nodes[starts[i]].id) in edges
  }

  /** A class graph under construction: its shape, fresh distinct ids from
      `[c0, bound)`, edges between its nodes, one edge per node beyond the
      class Start and End, each method linked from the previous one, and
      `last` the End of the last method (or the class Start). */
  ghost predicate ClassPartial(nodes: seq<CfgNode>, edges: seq<Edge>, starts: seq<nat>, last: Id, c0: nat, bound: nat)
  {
    ClassShape(nodes, starts) && IdsIn(nodes, c0, bound) && DistinctIds(nodes) && EdgesIn(nodes, edges)
    && |edges| == |nodes| - 2 && Linked(nodes, edges, starts)
    && last == LinkFrom(nodes, starts, |starts|)
  }

  /** What the class builder relies on about a method graph. */
  ghost predicate Block(nodes: seq<CfgNode>, edges: seq<Edge>, c: nat, c': nat)
  {
    |nodes| >= 2 && nodes[0].kind == StartNode && nodes[1].kind == EndNode
    && IdsIn(nodes, c, c') && DistinctIds(nodes) && EdgesIn(nodes, edges)
    && |edges| == |nodes| - 1
  }

  lemma BuiltBlock(mcfg: Cfg, c: nat, c': nat)
    requires Built(mcfg, c, c')
    ensures Block(mcfg.nodes, mcfg.edges, c, c')
  {
  }

  /** Relabelling changes no id, kind or edge. */
  lemma RelabelBlock(nodes: seq<CfgNode>, edges: seq<Edge>, prefix: string, c: nat, c': nat)
    requires Block(nodes, edges, c, c')
    ensures Block(Relabel(nodes, prefix), edges, c, c')
  {
    assert Ids(Relabel(nodes, prefix)) == Ids(nodes);
  }

  /** The node a link comes from is in the graph. */
  lemma LinkFromIn(nodes: seq<CfgNode>, starts: seq<nat>, i: nat)
    requires ClassShape(nodes, starts) && i <= |starts|
    ensures LinkFrom(nodes, starts, i) in Ids(nodes)
  {
    if i == 0 {
      assert Ids(nodes)[0] == nodes[0].id;
    } else {
      assert Ids(nodes)[starts[i - 1] + 1] == nodes[starts[i - 1] + 1].id;
    }
  }

  /** Merging one more method graph (`block`, `blockEdges`) keeps the class
      invariant. */
  lemma ClassStep(nodes: seq<CfgNode>, edges: seq<Edge>, starts: seq<nat>, last: Id, c0: nat, c: nat,
                  block: seq<CfgNode>, blockEdges: seq<Edge>, c': nat)
    requires ClassPartial(nodes, edges, starts, last, c0, c) && Block(block, blockEdges, c, c')
    ensures ClassPartial(nodes + block, edges + blockEdges + [(last, block[0].id)], starts + [|nodes|],
                         block[1].id, c0, c')
  {
    LinkFromIn(nodes, starts, |starts|);
    ClassShapeStep(nodes, starts, block);
    ClassIdsStep(nodes, c0, c, block, c');
    ClassEdgesStep(nodes, edges, last, block, blockEdges);
    ClassLinksStep(nodes, edges, starts, last, block, blockEdges);
  }

  lemma ClassShapeStep(nodes: seq<CfgNode>, starts: seq<nat>, block: seq<CfgNode>)
    requires ClassShape(nodes, starts)
    requires |block| >= 2 && block[0].kind == StartNode && block[1].kind == EndNode
    ensures ClassShape(nodes + block, starts + [|nodes|])
    ensures forall i :: 0 <= i <= |starts| ==>
              LinkFrom(nodes + block, starts + [|nodes|], i) == LinkFrom(nodes, starts, i)
    ensures LinkFrom(nodes + block, starts + [|nodes|], |starts| + 1) == block[1].id
  {
    var nodes', starts' := nodes + block, starts + [|nodes|];
    forall i | 0 <= i <= |starts| ensures LinkFrom(nodes', starts', i) == LinkFrom(nodes, starts, i) {
      if i > 0 {
        assert nodes'[starts[i - 1] + 1] == nodes[starts[i - 1] + 1];
      }
    }
  }

  lemma ClassIdsStep(nodes: seq<CfgNode>, c0: nat, c: nat, block: seq<CfgNode>, c': nat)
    requires c0 <= c <= c'
    requires IdsIn(nodes, c0, c) && DistinctIds(nodes) && IdsIn(block, c, c') && DistinctIds(block)
    ensures IdsIn(nodes + block, c0, c') && DistinctIds(nodes + block)
  {
  }

  lemma ClassEdgesStep(nodes: seq<CfgNode>, edges: seq<Edge>, last: Id, block: seq<CfgNode>, blockEdges: seq<Edge>)
    requires EdgesIn(nodes, edges) && EdgesIn(block, blockEdges)
    requires |block| >= 1 && last in Ids(nodes)
    ensures EdgesIn(nodes + block, edges + blockEdges + [(last, block[0].id)])
  {
    var nodes', edges' := nodes + block, edges + blockEdges + [(last, block[0].id)];
    IdsAppend(nodes, block);
    forall k | 0 <= k < |edges'| ensures edges'[k].0 in Ids(nodes') && edges'[k].1 in Ids(nodes') {
      if k < |edges| {
        assert edges'[k] == edges[k];
      } else if k < |edges| + |blockEdges| {
        assert edges'[k] == blockEdges[k - |edges|];
      } else {
        assert Ids(block)[0] == block[0].id;
      }
    }
  }

  lemma ClassLinksStep(nodes: seq<CfgNode>, edges: seq<Edge>, starts: seq<nat>, last: Id, block: seq<CfgNode>,
                       blockEdges: seq<Edge>)
    requires Linked(nodes, edges, starts) && last == LinkFrom(nodes, starts, |starts|)
    requires |block| >= 2 && block[0].kind == StartNode && block[1].kind == EndNode
    ensures Linked(nodes + block, edges + blockEdges + [(last, block[0].id)], starts + [|nodes|])
  {
    var nodes', edges', starts' := nodes + block, edges + blockEdges + [(last, block[0].id)], starts + [|nodes|];
    ClassShapeStep(nodes, starts, block);
    forall i | 0 <= i < |starts'| ensures (LinkFrom(nodes', starts', i), nodes'[starts'[i]].id) in edges' {
      if i < |starts| {
        assert nodes'[starts'[i]] == nodes[starts[i]];
        var k :| 0 <= k < |edges| && edges[k] == (LinkFrom(nodes, starts, i), nodes[starts[i]].id);
        assert edges'[k] == edges[k];
      } else {
        assert edges'[|edges'| - 1] == (last, block[0].id);
      }
    }
  }

  /** A finished class graph: the class invariant, with the last link into
      the class End, and one edge fewer than nodes. */
  ghost predicate ClassBuilt(cfg: Cfg, starts: seq<nat>, c0: nat, c1: nat)
  {
    var nodes, edges := cfg.nodes, cfg.edges;
    ClassShape(nodes, starts) && IdsIn(nodes, c0, c1) && DistinctIds(nodes) && EdgesIn(nodes, edges)
    && |edges| == |nodes| - 1 && Linked(nodes, edges, starts)
    && edges[|edges| - 1] == (LinkFrom(nodes, starts, |starts|), nodes[1].id)
  }

  lemma ClassFinish(nodes: seq<CfgNode>, edges: seq<Edge>, starts: seq<nat>, last: Id, c0: nat, bound: nat,
                    name: string, connected: seq<CfgNode>)
    requires ClassPartial(nodes, edges, starts, last, c0, bound) && NextOk(nodes, edges + [(last, nodes[1].id)])
    requires |connected| == |nodes|
    requires forall i :: 0 <= i < |nodes| ==>
               connected[i] == nodes[i].(next := Extend(nodes[i].next, Targets(edges + [(last, nodes[1].id)], nodes[i].id)))
    ensures ClassBuilt(Cfg(name, connected, edges + [(last, nodes[1].id)]), starts, c0, bound)
    ensures forall i :: 0 <= i < |nodes| ==>
              connected[i] == nodes[i].(next := Distinct(Targets(edges + [(last, nodes[1].id)], nodes[i].id)))
  {
    ConnectedBuilt(nodes, edges, starts, last, c0, bound, name, connected);
  }

  /** Rewriting only the `next` lists keeps the class invariant. */
  lemma ConnectedBuilt(nodes: seq<CfgNode>, edges: seq<Edge>, starts: seq<nat>, last: Id, c0: nat, bound: nat,
                       name: string, connected: seq<CfgNode>)
    requires ClassPartial(nodes, edges, starts, last, c0, bound)
    requires |connected| == |nodes| && forall i :: 0 <= i < |nodes| ==> connected[i].(next := nodes[i].next) == nodes[i]
    ensures ClassBuilt(Cfg(name, connected, edges + [(last, nodes[1].id)]), starts, c0, bound)
  {
    assert Ids(connected) == Ids(nodes);
    var edges' := edges + [(last, nodes[1].id)];
    assert ClassShape(connected, starts);
    forall i | 0 <= i <= |starts| ensures LinkFrom(connected, starts, i) == LinkFrom(nodes, starts, i) {
    }
    forall k | 0 <= k < |edges'| ensures edges'[k].0 in Ids(connected) && edges'[k].1 in Ids(connected) {
      if k < |edges| {
        assert edges'[k] == edges[k];
      } else {
        assert Ids(nodes)[0] == nodes[0].id && Ids(nodes)[1] == nodes[1].id;
      }
    }
  }

  // ---------------------------------------------------------------------
  // The `next` lists of a class graph
  // ---------------------------------------------------------------------

  /** Each node's `next` list, once the "connect next references" loop has
      run over `edges`, is the distinct targets of its edges. */
  ghost predicate NextOk(nodes: seq<CfgNode>, edges: seq<Edge>)
  {
    forall k :: 0 <= k < |nodes| ==> Extend(nodes[k].next, Targets(edges, nodes[k].id)) == Distinct(Targets(edges, nodes[k].id))
  }

  lemma {:induction false} TargetsAppend(a: seq<Edge>, b: seq<Edge>, u: Id)
    ensures Targets(a + b, u) == Targets(a, u) + Targets(b, u)
    decreases |b|
  {
    if b == [] {
      assert a + b == a;
    } else {
      assert (a + b)[..|a + b| - 1] == a + b[..|b| - 1];
      TargetsAppend(a, b[..|b| - 1], u);
    }
  }

  lemma {:induction false} TargetsAbsent(edges: seq<Edge>, u: Id)
    requires forall k :: 0 <= k < |edges| ==> edges[k].0 != u
    ensures Targets(edges, u) == []
    decreases |edges|
  {
    if edges != [] {
      TargetsAbsent(edges[..|edges| - 1], u);
    }
  }

  lemma {:induction false} ExtendAppend(list: seq<Id>, xs: seq<Id>, ys: seq<Id>)
    ensures Extend(list, xs + ys) == Extend(Extend(list, xs), ys)
    decreases |ys|
  {
    if ys == [] {
      assert xs + ys == xs;
    } else {
      var y0 := ys[..|ys| - 1];
      assert (xs + ys)[..|xs + ys| - 1] == xs + y0;
      ExtendAppend(list, xs, y0);
    }
  }

  lemma {:induction false} ExtendPresent(list: seq<Id>, ys: seq<Id>)
    requires forall k :: 0 <= k < |ys| ==> ys[k] in list
    ensures Extend(list, ys) == list
    decreases |ys|
  {
    if ys != [] {
      ExtendPresent(list, ys[..|ys| - 1]);
    }
  }

  /** A list filled from `xs` stays the distinct targets when more edges
      follow. */
  lemma DistinctAfter(list: seq<Id>, xs: seq<Id>, ys: seq<Id>)
    requires Extend(list, xs) == Distinct(xs)
    ensures Extend(list, xs + ys) == Distinct(xs + ys)
  {
    ExtendAppend(list, xs, ys);
    ExtendAppend([], xs, ys);
    ExtendEmpty(xs);
    ExtendEmpty(xs + ys);
  }

  lemma NextOkAppend(nodes: seq<CfgNode>, edges: seq<Edge>, more: seq<Edge>)
    requires NextOk(nodes, edges)
    ensures NextOk(nodes, edges + more)
  {
    forall k | 0 <= k < |nodes|
      ensures Extend(nodes[k].next, Targets(edges + more, nodes[k].id)) == Distinct(Targets(edges + more, nodes[k].id))
    {
      TargetsAppend(edges, more, nodes[k].id);
      DistinctAfter(nodes[k].next, Targets(edges, nodes[k].id), Targets(more, nodes[k].id));
    }
  }

  /** A method graph's own `next` lists already hold its targets. */
  ghost predicate OwnNext(block: seq<CfgNode>, blockEdges: seq<Edge>)
  {
    forall k :: 0 <= k < |block| ==> block[k].next == Distinct(Targets(blockEdges, block[k].id))
  }

  /** Merging a block with fresh ids keeps every `next` list right: the
      block's nodes have no edge among the earlier ones. */
  lemma MergeNextOk(nodes: seq<CfgNode>, edges: seq<Edge>, last: Id, c0: nat, c: nat,
                    block: seq<CfgNode>, blockEdges: seq<Edge>, c': nat)
    requires NextOk(nodes, edges) && EdgesIn(nodes, edges) && IdsIn(nodes, c0, c) && last in Ids(nodes)
    requires IdsIn(block, c, c') && |block| >= 1 && OwnNext(block, blockEdges)
    ensures NextOk(nodes + block, edges + blockEdges + [(last, block[0].id)])
  {
    var link := [(last, block[0].id)];
    var edges' := edges + blockEdges + link;
    NextOkAppend(nodes, edges, blockEdges + link);
    assert edges + (blockEdges + link) == edges';
    IdsBelow(nodes, c0, c);
    SourcesBelow(nodes, edges, c);
    forall k | 0 <= k < |block|
      ensures Extend(block[k].next, Targets(edges', block[k].id)) == Distinct(Targets(edges', block[k].id))
    {
      FreshNext(edges, blockEdges, last, block[0].id, block[k].id, block[k].next);
    }
    NextOkJoin(nodes, block, edges');
  }

  lemma NextOkJoin(nodes: seq<CfgNode>, block: seq<CfgNode>, edges: seq<Edge>)
    requires NextOk(nodes, edges)
    requires forall k :: 0 <= k < |block| ==>
               Extend(block[k].next, Targets(edges, block[k].id)) == Distinct(Targets(edges, block[k].id))
    ensures NextOk(nodes + block, edges)
  {
    var all := nodes + block;
    forall k | 0 <= k < |all|
      ensures Extend(all[k].next, Targets(edges, all[k].id)) == Distinct(Targets(edges, all[k].id))
    {
      if k >= |nodes| {
        assert all[k] == block[k - |nodes|];
      }
    }
  }

  lemma IdsBelow(nodes: seq<CfgNode>, c0: nat, c: nat)
    requires IdsIn(nodes, c0, c)
    ensures forall x :: x in Ids(nodes) ==> x < c
  {
  }

  lemma SourcesBelow(nodes: seq<CfgNode>, edges: seq<Edge>, c: nat)
    requires EdgesIn(nodes, edges) && forall x :: x in Ids(nodes) ==> x < c
    ensures forall j :: 0 <= j < |edges| ==> edges[j].0 < c
  {
  }

  /** A node of the new block, with an id no earlier edge leaves from, keeps
      the `next` list of its own method graph. */
  lemma FreshNext(edges: seq<Edge>, blockEdges: seq<Edge>, last: Id, first: Id, y: Id, next: seq<Id>)
    requires forall j :: 0 <= j < |edges| ==> edges[j].0 < y
    requires last < y && next == Distinct(Targets(blockEdges, y))
    ensures Extend(next, Targets(edges + blockEdges + [(last, first)], y))
            == Distinct(Targets(edges + blockEdges + [(last, first)], y))
  {
    var t := Targets(blockEdges, y);
    TargetsAbsent(edges, y);
    TargetsAbsent([(last, first)], y);
    TargetsAppend(edges, blockEdges, y);
    TargetsAppend(edges + blockEdges, [(last, first)], y);
    assert Targets(edges + blockEdges + [(last, first)], y) == t;
    assert forall k :: 0 <= k < |t| ==> t[k] in Distinct(t);
    ExtendPresent(Distinct(t), t);
  }

  // ---------------------------------------------------------------------
  // The class graph from its method graphs
  // ---------------------------------------------------------------------

  /** What `buildCFG(m)` returns when it draws ids from `[c0, c1)`: a built
      graph named after the method, at least one node per statement, loop,
      conditional, if tree and chaining entry, and without if trees the
      chain Start, statements, loops, conditionals, chaining, End. */
  ghost predicate MethodCfgOf(cfg: Cfg, m: MethodInput, c0: nat, c1: nat)
  {
    c0 + 2 <= c1
    && Built(cfg, c0, c1)
    && cfg.methodName == Or(m.name, "anonymous")
    && cfg.nodes[0].labelText == "Start" && cfg.nodes[1].labelText == "End"
    && |cfg.nodes| >= 2 + |Statements(m)| + |m.loops| + |m.conditionals| + |m.conditionalsTree| + |m.constructorChaining|
    && (m.conditionalsTree == [] ==>
          var order := [cfg.nodes[0]] + cfg.nodes[2..] + [cfg.nodes[1]];
          |cfg.nodes| == 2 + |Statements(m)| + |m.loops| + |m.conditionals| + |m.constructorChaining|
          && Labels(order) == ChainLabelsOf(m)
          && forall k :: 0 <= k < |cfg.edges| ==> cfg.edges[k] == (order[k].id, order[k + 1].id))
  }

  /** The label prefix `Class.method → ` of a method graph. */
  function Prefix(className: string, g: Cfg): string
  {
    className + "." + g.methodName + " \U{2192} "
  }

  /** The nodes of the merged method graphs, relabelled, in method order. */
  function Blocks(className: string, graphs: seq<Cfg>): seq<CfgNode>
  {
    if graphs == [] then []
    else
      var g := graphs[|graphs| - 1];
      Blocks(className, graphs[..|graphs| - 1]) + Relabel(g.nodes, Prefix(className, g))
  }

  /** Where the next link comes from once `graphs` are merged: the End of
      the last method graph that has one, else the class Start. */
  function LastOf(startId: Id, graphs: seq<Cfg>): Id
  {
    if graphs == [] then startId
    else
      var g := graphs[|graphs| - 1];
      match FindKind(g.nodes, EndNode)
      case Some(k) => g.nodes[k].id
      case None => LastOf(startId, graphs[..|graphs| - 1])
  }

  /** The edges once `graphs` are merged: each method's edges, then the link
      into its Start when it has one. */
  function Links(startId: Id, graphs: seq<Cfg>): seq<Edge>
  {
    if graphs == [] then []
    else
      var init, g := graphs[..|graphs| - 1], graphs[|graphs| - 1];
      Links(startId, init) + g.edges
      + match FindKind(g.nodes, StartNode)
        case Some(k) => [(LastOf(startId, init), g.nodes[k].id)]
        case None => []
  }

  /** The method's graph with every label prefixed by `Class.method → `. */
  method MethodBlock(className: string, m: MethodInput, ids: UuidSource)
    returns (block: seq<CfgNode>, edges: seq<Edge>, ghost g: Cfg)
    modifies ids
    ensures MethodCfgOf(g, m, old(ids.counter), ids.counter)
    ensures block == Relabel(g.nodes, Prefix(className, g)) && edges == g.edges
    ensures Block(block, edges, old(ids.counter), ids.counter) && OwnNext(block, edges)
    ensures block[0].labelText == className + "." + Or(m.name, "anonymous") + " \U{2192} Start"
    ensures block[1].labelText == className + "." + Or(m.name, "anonymous") + " \U{2192} End"
  {
    ghost var c := ids.counter;
    var methodCfg := BuildCfg(m, ids);
    var prefix := className + "." + methodCfg.methodName + " \U{2192} ";
    block := Relabel(methodCfg.nodes, prefix);
    edges := methodCfg.edges;
    g := methodCfg;
    BuiltBlock(methodCfg, c, ids.counter);
    RelabelBlock(methodCfg.nodes, edges, prefix, c, ids.counter);
  }

  /** One pass of the method loop of `buildClassCFG`: builds the method's
      graph `g`, prefixes its labels with `Class.method → `, appends its
      nodes and edges, links its Start from `last` and makes its End the new
      `last`. */
  method MergeMethod(className: string, m: MethodInput, nodes0: seq<CfgNode>, edges0: seq<Edge>, ghost starts0: seq<nat>,
                     last0: Id, ghost c0: nat, ids: UuidSource)
    returns (nodes: seq<CfgNode>, edges: seq<Edge>, ghost starts: seq<nat>, last: Id, ghost g: Cfg)
    requires ClassPartial(nodes0, edges0, starts0, last0, c0, ids.counter) && NextOk(nodes0, edges0)
    modifies ids
    ensures MethodCfgOf(g, m, old(ids.counter), ids.counter)
    ensures nodes == nodes0 + Relabel(g.nodes, Prefix(className, g))
    ensures edges == edges0 + g.edges + [(last0, g.nodes[0].id)] && last == g.nodes[1].id
    ensures ClassPartial(nodes, edges, starts, last, c0, ids.counter) && NextOk(nodes, edges)
    ensures starts == starts0 + [|nodes0|]
  {
    ghost var c := ids.counter;
    var block, blockEdges;
    block, blockEdges, g := MethodBlock(className, m, ids);
    ClassStep(nodes0, edges0, starts0, last0, c0, c, block, blockEdges, ids.counter);
    LinkFromIn(nodes0, starts0, |starts0|);
    MergeNextOk(nodes0, edges0, last0, c0, c, block, blockEdges, ids.counter);
    var firstNode := FindKind(block, StartNode);
    var lastNode := FindKind(block, EndNode);
    FindStartEnd(block);
    starts := starts0 + [|nodes0|];
    nodes := nodes0 + block;
    edges := edges0 + blockEdges;
    last := last0;
    if firstNode.Some? {
      edges := edges + [(last0, block[firstNode.value].id)];
    }
    if lastNode.Some? {
      last := block[lastNode.value].id;
    }
  }

  /** The end of `buildClassCFG`: the edge from the last method's End (or
      the class Start) into the class End, then the `next` lists. */
  method FinishClass(name: string, nodes: seq<CfgNode>, edges0: seq<Edge>, ghost starts: seq<nat>, last: Id, endId: Id,
                     ghost c0: nat, ghost bound: nat)
    returns (cfg: Cfg)
    requires ClassPartial(nodes, edges0, starts, last, c0, bound) && NextOk(nodes, edges0) && endId == nodes[1].id
    ensures ClassBuilt(cfg, starts, c0, bound)
    ensures cfg.methodName == name && cfg.edges == edges0 + [(last, endId)] && |cfg.nodes| == |nodes|
    ensures forall k :: 0 <= k < |nodes| ==> cfg.nodes[k] == nodes[k].(next := Distinct(Targets(cfg.edges, nodes[k].id)))
  {
    var edges := edges0 + [(last, endId)];
    var connected := ConnectNext(nodes, edges);
    NextOkAppend(nodes, edges0, [(last, endId)]);
    ClassFinish(nodes, edges0, starts, last, c0, bound, name, connected);
    cfg := Cfg(name, connected, edges);
  }

  /** The merge loop keeps the class graph equal to the class Start and End
      followed by the merged method graphs. */
  lemma MergedStep(head: seq<CfgNode>, className: string, graphs: seq<Cfg>, g: Cfg, startId: Id)
    requires |g.nodes| >= 2 && g.nodes[0].kind == StartNode && g.nodes[1].kind == EndNode
    ensures head + Blocks(className, graphs + [g]) == head + Blocks(className, graphs) + Relabel(g.nodes, Prefix(className, g))
    ensures Links(startId, graphs + [g]) == Links(startId, graphs) + g.edges + [(LastOf(startId, graphs), g.nodes[0].id)]
    ensures LastOf(startId, graphs + [g]) == g.nodes[1].id
  {
    assert (graphs + [g])[..|graphs|] == graphs;
    FindStartEnd(g.nodes);
  }

  lemma FindStartEnd(nodes: seq<CfgNode>)
    requires |nodes| >= 2 && nodes[0].kind == StartNode && nodes[1].kind == EndNode
    ensures FindKind(nodes, StartNode) == Some(0) && FindKind(nodes, EndNode) == Some(1)
  {
    assert nodes[1..][0] == nodes[1];
  }

  /** Method graph `j` is what `buildCFG` returns for method `j`, drawing
      ids from `[counters[j], counters[j + 1])`. */
  ghost predicate MethodCfgsOf(graphs: seq<Cfg>, methods: seq<MethodInput>, counters: seq<nat>)
  {
    |graphs| <= |methods| && |counters| == |graphs| + 1
    && forall j :: 0 <= j < |graphs| ==> MethodCfgOf(graphs[j], methods[j], counters[j], counters[j + 1])
  }

  lemma MethodCfgsSnoc(graphs: seq<Cfg>, methods: seq<MethodInput>, counters: seq<nat>, g: Cfg, c: nat)
    requires MethodCfgsOf(graphs, methods, counters) && |graphs| < |methods|
    requires MethodCfgOf(g, methods[|graphs|], counters[|graphs|], c)
    ensures MethodCfgsOf(graphs + [g], methods, counters + [c])
  {
    var graphs', counters' := graphs + [g], counters + [c];
    forall j | 0 <= j < |graphs'| ensures MethodCfgOf(graphs'[j], methods[j], counters'[j], counters'[j + 1]) {
      if j < |graphs| {
        assert graphs'[j] == graphs[j] && counters'[j] == counters[j] && counters'[j + 1] == counters[j + 1];
      }
    }
  }

  /** `buildClassCFG(classNode)`: the class Start and End, then each method's
      graph `graphs[i]` (what `buildCFG` returns for method i, drawing its
      ids from `[counters[i], counters[i + 1])`) with its labels prefixed by
      `Class.method → `, linked from the previous method's End (the class
      Start for the first), and a final edge into the class End; every
      `next` list is the distinct targets of the node's edges. `starts` is
      where each method's block begins. */
  method BuildClassCfg(cls: ClassInput, ids: UuidSource)
    returns (cfg: Cfg, ghost starts: seq<nat>, ghost graphs: seq<Cfg>, ghost counters: seq<nat>)
    modifies ids
    ensures cfg.methodName == cls.name
    ensures |starts| == |graphs| == |cls.methods| && |counters| == |cls.methods| + 1
    ensures counters[0] == old(ids.counter) + 2 && counters[|cls.methods|] == ids.counter
    ensures forall i :: 0 <= i < |cls.methods| ==> MethodCfgOf(graphs[i], cls.methods[i], counters[i], counters[i + 1])
    ensures var merged := [CfgNode(old(ids.counter), "Start (" + cls.name + ")", StartNode, []),
                           CfgNode(old(ids.counter) + 1, "End (" + cls.name + ")", EndNode, [])]
                          + Blocks(cls.name, graphs);
            |cfg.nodes| == |merged|
            && forall k :: 0 <= k < |merged| ==> cfg.nodes[k] == merged[k].(next := Distinct(Targets(cfg.edges, merged[k].id)))
    ensures cfg.edges == Links(old(ids.counter), graphs) + [(LastOf(old(ids.counter), graphs), old(ids.counter) + 1)]
    ensures ClassBuilt(cfg, starts, old(ids.counter), ids.counter)
  {
    ghost var c0 := ids.counter;
    var startId := ids.Fresh();
    var endId := ids.Fresh();
    var head := [CfgNode(startId, "Start (" + cls.name + ")", StartNode, []),
                 CfgNode(endId, "End (" + cls.name + ")", EndNode, [])];
    assert Ids(head) == [startId, endId];
    ExtendEmpty([]);
    var nodes, edges, lastNodeId;
    nodes, edges, starts, lastNodeId, graphs, counters := MergeMethods(cls, head, c0, ids);
    cfg := FinishClass(cls.name, nodes, edges, starts, lastNodeId, endId, c0, ids.counter);
    assert nodes == head + Blocks(cls.name, graphs);
  }

  /** The state of the method loop of `buildClassCFG` once the methods
      whose graphs are `graphs` are merged after the class `head`. */
  ghost predicate MergedUpTo(cls: ClassInput, head: seq<CfgNode>, c0: nat, nodes: seq<CfgNode>, edges: seq<Edge>,
                             starts: seq<nat>, last: Id, graphs: seq<Cfg>, counters: seq<nat>, bound: nat)
  {
    |head| == 2 && ClassPartial(nodes, edges, starts, last, c0, bound) && NextOk(nodes, edges)
    && |starts| == |graphs| && MethodCfgsOf(graphs, cls.methods, counters) && counters[|graphs|] == bound
    && nodes == head + Blocks(cls.name, graphs)
    && edges == Links(head[0].id, graphs) && last == LastOf(head[0].id, graphs)
  }

  /** One turn of the method loop keeps `MergedUpTo`. */
  lemma MergedUpToStep(cls: ClassInput, head: seq<CfgNode>, c0: nat, nodes0: seq<CfgNode>, edges0: seq<Edge>,
                       starts0: seq<nat>, last0: Id, graphs: seq<Cfg>, counters: seq<nat>, c: nat,
                       nodes: seq<CfgNode>, edges: seq<Edge>, starts: seq<nat>, last: Id, g: Cfg, c': nat)
    requires MergedUpTo(cls, head, c0, nodes0, edges0, starts0, last0, graphs, counters, c) && |graphs| < |cls.methods|
    requires MethodCfgOf(g, cls.methods[|graphs|], c, c')
    requires nodes == nodes0 + Relabel(g.nodes, Prefix(cls.name, g))
    requires edges == edges0 + g.edges + [(last0, g.nodes[0].id)] && last == g.nodes[1].id
    requires ClassPartial(nodes, edges, starts, last, c0, c') && NextOk(nodes, edges) && starts == starts0 + [|nodes0|]
    ensures MergedUpTo(cls, head, c0, nodes, edges, starts, last, graphs + [g], counters + [c'], c')
  {
    MergedStep(head, cls.name, graphs, g, head[0].id);
    MethodCfgsSnoc(graphs, cls.methods, counters, g, c');
  }

  /** The method loop of `buildClassCFG`, from the class Start and End. */
  method MergeMethods(cls: ClassInput, head: seq<CfgNode>, ghost c0: nat, ids: UuidSource)
    returns (nodes: seq<CfgNode>, edges: seq<Edge>, ghost starts: seq<nat>, lastNodeId: Id, ghost graphs: seq<Cfg>,
             ghost counters: seq<nat>)
    requires |head| == 2 && ClassPartial(head, [], [], head[0].id, c0, ids.counter) && NextOk(head, [])
    modifies ids
    ensures ClassPartial(nodes, edges, starts, lastNodeId, c0, ids.counter) && NextOk(nodes, edges)
    ensures |starts| == |graphs| == |cls.methods| && MethodCfgsOf(graphs, cls.methods, counters)
    ensures counters[0] == old(ids.counter) && counters[|cls.methods|] == ids.counter
    ensures nodes == head + Blocks(cls.name, graphs)
    ensures edges == Links(head[0].id, graphs) && lastNodeId == LastOf(head[0].id, graphs)
  {
    nodes, edges, lastNodeId := head, [], head[0].id;
    starts, graphs, counters := [], [], [ids.counter];
    for i := 0 to |cls.methods|
      invariant i == |graphs| && MergedUpTo(cls, head, c0, nodes, edges, starts, lastNodeId, graphs, counters, ids.counter)
      invariant counters[0] == old(ids.counter)
    {
      ghost var c := ids.counter;
      var nodes', edges', lastNodeId';
      ghost var starts', g;
      nodes', edges', starts', lastNodeId', g := MergeMethod(cls.name, cls.methods[i], nodes, edges, starts, lastNodeId, c0, ids);
      MergedUpToStep(cls, head, c0, nodes, edges, starts, lastNodeId, graphs, counters, c,
                     nodes', edges', starts', lastNodeId', g, ids.counter);
      nodes, edges, starts, lastNodeId := nodes', edges', starts', lastNodeId';
      graphs, counters := graphs + [g], counters + [ids.counter];
    }
  }
}
