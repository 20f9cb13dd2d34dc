// calculateNestingDepth: the deepest nesting level reached below a method's
// body, counting the nesting statements (if, loops, switch, try, catch)
// above each visited node.

module NestingDepth {
  import opened Wrappers
  import opened Seqs
  import opened Text
  import opened Json

  /** A node nests its descendants when its lower-cased name contains one of these. */
  const NestingKeywords: seq<string> :=
    ["ifstatement", "forstatement", "whilestatement", "dostatement",
     "switchstatement", "trystatement", "catchclause", "foreachstatement"]

  predicate IsNestingName(name: string)
  {
    exists i :: 0 <= i < |NestingKeywords| && Contains(name, NestingKeywords[i])
  }

  /** 1 when `v` nests what lies below it, 0 otherwise: the amount
      `isNestingNode ? currentDepth + 1 : currentDepth` adds. */
  function Nest(v: Value): (r: nat)
    ensures r <= 1
    ensures r == 1 <==> IsNestingName(LowerName(v))
  {
    if IsNestingName(LowerName(v)) then 1 else 0
  }

  /** The properties the traversal lists besides `children`: the keys and
      values `Object.keys` gives, indices for an array. */
  function Props(v: Value): (r: seq<Field>)
    ensures forall i :: 0 <= i < |r| ==> r[i].val < v
  {
    match v
    case Obj(fields) =>
      assert forall i :: 0 <= i < |fields| ==> fields[i] in fields;
      fields
    case Arr(items) =>
      assert forall i :: 0 <= i < |items| ==> items[i] in items;
      seq(|items|, i requires 0 <= i < |items| => Field(NatToString(i), items[i]))
    case _ => []
  }

  /** A property is followed when its key is none of `children`, `name`,
      `value` and its value is a non-array object. */
  predicate Followed(f: Field)
  {
    f.key !in ["children", "name", "value"] && f.val.Obj?
  }

  function FollowedVals(fs: seq<Field>): seq<Value>
  {
    if fs == [] then []
    else
      var last := fs[|fs| - 1];
      FollowedVals(fs[..|fs| - 1]) + (if Followed(last) then [last.val] else [])
  }

  lemma {:induction false} FollowedBelow(fs: seq<Field>, parent: Value)
    requires forall i :: 0 <= i < |fs| ==> fs[i].val < parent
    ensures Below(FollowedVals(fs), parent)
    decreases |fs|
  {
    if fs != [] {
      FollowedBelow(fs[..|fs| - 1], parent);
    }
  }

  /** The other properties the traversal descends into, in key order. */
  function PropNodes(v: Value): (r: seq<Value>)
    ensures Below(r, v)
  {
    FollowedBelow(Props(v), v);
    FollowedVals(Props(v))
  }

  /** Everything the traversal of `v` recurses into, in visit order. */
  function Subnodes(v: Value): (r: seq<Value>)
    ensures Below(r, v)
  {
    ChildNodes(v) + PropNodes(v)
  }

  // ---------------------------------------------------------------------
  // The value the traversal computes
  // ---------------------------------------------------------------------

  /** How many levels below its own depth the traversal of a truthy `v`
      records: 0 when nothing under `v` is truthy, and otherwise the
      deepest reach among its subnodes, one more when `v` nests. So the
      traversal of `v` at depth `d` records at most `d + Reach(v)`, and
      reaches it; `Reach(v)` is the largest number of nesting nodes on a
      path from `v` (included) down to a visited node (excluded). */
  function Reach(v: Value): nat
    decreases v, 1
  {
    var r := ReachAll(v, Subnodes(v));
    if r < 0 then 0 else Nest(v) + r
  }

  /** What visiting `x` adds to the reach of its parent: its own reach when
      it is truthy, -1 (nothing) otherwise. */
  function Contrib(x: Value): (r: int)
    ensures r >= -1
    decreases x, 2
  {
    if Truthy(x) then Reach(x) else -1
  }

  /** The deepest reach among the truthy values of `s`, -1 when none is
      truthy. */
  function ReachAll(parent: Value, s: seq<Value>): (r: int)
    requires Below(s, parent)
    ensures r >= -1
    decreases parent, 0, |s|
  {
    if s == [] then -1
    else Max(ReachAll(parent, s[..|s| - 1]), Contrib(s[|s| - 1]))
  }

  /** The largest depth recorded by visiting values whose deepest reach is
      `r`, each at depth `d`; 0 (nothing) when `r` is -1. */
  function Lift(d: nat, r: int): nat
  {
    if r < 0 then 0 else d + r
  }

  /** `calculateNestingDepth(m)`: 0 unless the method record `m` has a
      truthy body, the body's reach from depth 0 otherwise. */
  function NestingDepthOf(m: Value): nat
  {
    match Get(m, "body")
    case Some(b) => if Truthy(b) then Reach(b) else 0
    case None => 0
  }

  lemma ReachAllSnoc(parent: Value, s: seq<Value>, x: Value)
    requires Below(s + [x], parent)
    ensures Below(s, parent)
    ensures ReachAll(parent, s + [x]) == Max(ReachAll(parent, s), Contrib(x))
  {
    assert (s + [x])[..|s|] == s;
    assert forall i :: 0 <= i < |s| ==> s[i] == (s + [x])[i];
  }

  lemma {:induction false} ReachAllAppend(parent: Value, a: seq<Value>, b: seq<Value>)
    requires Below(a + b, parent)
    ensures Below(a, parent) && Below(b, parent)
    ensures ReachAll(parent, a + b) == Max(ReachAll(parent, a), ReachAll(parent, b))
    decreases |b|
  {
    assert Below(a, parent) && Below(b, parent) by {
      assert forall i :: 0 <= i < |a| ==> a[i] == (a + b)[i];
      assert forall i :: 0 <= i < |b| ==> b[i] == (a + b)[|a| + i];
    }
    if b == [] {
      assert a + b == a;
    } else {
      var b0, y := b[..|b| - 1], b[|b| - 1];
      assert b == b0 + [y];
      assert a + b == (a + b0) + [y];
      assert Below(a + b0, parent) by {
        assert forall i :: 0 <= i < |a + b0| ==> (a + b0)[i] == (a + b)[i];
      }
      ReachAllAppend(parent, a, b0);
      assert ReachAll(parent, a + b) == Max(ReachAll(parent, a + b0), Contrib(y)) by {
        ReachAllSnoc(parent, a + b0, y);
      }
      assert ReachAll(parent, b) == Max(ReachAll(parent, b0), Contrib(y)) by {
        ReachAllSnoc(parent, b0, y);
      }
    }
  }

  /** The running maximum after visiting one more value at depth `d`. */
  lemma SnocMax(parent: Value, s: seq<Value>, x: Value, d: nat, m0: nat, m1: nat, m2: nat)
    requires Below(s, parent) && Below(s + [x], parent)
    requires m1 == Max(m0, Lift(d, ReachAll(parent, s)))
    requires m2 == Max(m1, Lift(d, Contrib(x)))
    ensures m2 == Max(m0, Lift(d, ReachAll(parent, s + [x])))
  {
    ReachAllSnoc(parent, s, x);
  }

  /** The running maximum after visiting a run of values at depth `d`. */
  lemma AppendMax(parent: Value, a: seq<Value>, b: seq<Value>, d: nat, m0: nat, m1: nat, m2: nat)
    requires Below(a + b, parent)
    requires Below(a, parent) && Below(b, parent)
    requires m1 == Max(m0, Lift(d, ReachAll(parent, a)))
    requires m2 == Max(m1, Lift(d, ReachAll(parent, b)))
    ensures m2 == Max(m0, Lift(d, ReachAll(parent, a + b)))
  {
    ReachAllAppend(parent, a, b);
  }

  /** The running maximum across one visit at depth `d`: after the node's
      own depth, after its children, after its other properties, both
      visited at `nd`. */
  lemma VisitMax(v: Value, d: nat, nd: nat, m0: nat, m1: nat, m2: nat, m3: nat)
    requires Truthy(v)
    requires nd == d + Nest(v)
    requires m1 == Max(m0, d)
    requires m2 == Max(m1, Lift(nd, ReachAll(v, ChildNodes(v))))
    requires m3 == Max(m2, Lift(nd, ReachAll(v, PropNodes(v))))
    ensures m3 == Max(m0, Lift(d, Contrib(v)))
  {
    var c, p := ChildNodes(v), PropNodes(v);
    assert Subnodes(v) == c + p;
    ReachAllAppend(v, c, p);
  }

  // ---------------------------------------------------------------------
  // What the recorded depth means
  // ---------------------------------------------------------------------

  /** No node below `v`, nor `v` itself, has a nesting name. */
  ghost predicate Flat(v: Value)
    decreases v
  {
    !IsNestingName(LowerName(v))
    && forall i :: 0 <= i < |Subnodes(v)| ==> Flat(Subnodes(v)[i])
  }

  /** Depth only grows below nesting nodes: the traversal of a tree without
      any records nothing deeper than where it starts. */
  lemma {:induction false} FlatReach(v: Value)
    requires Flat(v)
    ensures Reach(v) == 0
    decreases v, 1, 0
  {
    FlatAllReach(v, Subnodes(v));
  }

  lemma {:induction false} FlatAllReach(parent: Value, s: seq<Value>)
    requires Below(s, parent)
    requires forall i :: 0 <= i < |s| ==> Flat(s[i])
    ensures ReachAll(parent, s) <= 0
    decreases parent, 0, |s|
  {
    if s != [] {
      FlatAllReach(parent, s[..|s| - 1]);
      FlatReach(s[|s| - 1]);
    }
  }

  /** The traversal of a wrapper reaches exactly the wrapped value. */
  lemma WrapShape(name: string, v: Value)
    requires v.Obj?
    ensures LowerName(Wrap(name, v)) == ToLower(name)
    ensures Subnodes(Wrap(name, v)) == [v]
  {
    WrapChildren(name, v);
    WrapProps(name, v);
  }

  /** Neither property of a wrapper is followed as a property. */
  lemma WrapProps(name: string, v: Value)
    ensures PropNodes(Wrap(name, v)) == []
  {
    var fs := Wrap(name, v).fields;
    assert Props(Wrap(name, v)) == fs;
    assert fs[..2] == fs && fs[..2][..1] == fs[..1] && fs[..1][..0] == [];
    assert !Followed(fs[0]) && !Followed(fs[1]);
    assert FollowedVals(fs[..1]) == [];
  }

  /** Wrapping an object in a node adds one level exactly when the wrapper
      is a nesting node, and none otherwise. */
  lemma WrapReach(name: string, v: Value)
    requires v.Obj?
    ensures Reach(Wrap(name, v)) == (if IsNestingName(ToLower(name)) then 1 else 0) + Reach(v)
  {
    var w := Wrap(name, v);
    WrapShape(name, v);
    ReachOne(w, v);
  }

  /** A single truthy value reaches as far as it does on its own. */
  lemma ReachOne(parent: Value, x: Value)
    requires Below([x], parent) && Truthy(x)
    ensures ReachAll(parent, [x]) == Reach(x)
  {
    assert [x][..0] == [];
  }

  // ---------------------------------------------------------------------
  // The traversal, as the source runs it
  // ---------------------------------------------------------------------

  /** The closure's captured `maxDepth`. */
  class DepthTracker {
    var maxDepth: nat

    constructor()
      ensures maxDepth == 0
    {
      maxDepth := 0;
    }

    /** `traverse(node, currentDepth)`: a truthy node records its own
        depth and everything below it reaches at most `Reach(node)`
        levels further. */
    method Traverse(node: Value, currentDepth: nat)
      modifies this
      ensures maxDepth == Max(old(maxDepth), Lift(currentDepth, Contrib(node)))
      decreases node, 2, 0
    {
      if !Truthy(node) {
        assert Lift(currentDepth, Contrib(node)) == 0;
        return;
      }
      if currentDepth > maxDepth {
        maxDepth := currentDepth;
      }
      var nextDepth := if IsNestingName(LowerName(node)) then currentDepth + 1 else currentDepth;
      ghost var m0, m1 := old(maxDepth), maxDepth;
      TraverseChildren(node, nextDepth);
      ghost var m2 := maxDepth;
      TraverseProps(node, nextDepth);
      VisitMax(node, currentDepth, nextDepth, m0, m1, m2, maxDepth);
    }

    /** The `node.children` loop: each array entry item by item, each object
        entry itself. */
    method TraverseChildren(node: Value, nextDepth: nat)
      modifies this
      ensures maxDepth == Max(old(maxDepth), Lift(nextDepth, ReachAll(node, ChildNodes(node))))
      decreases node, 1, 0
    {
      var children := Get(node, "children");
      if children.Some? && Truthy(children.value) {
        var entries := Values(children.value);
        assert Below(entries, node);
        for i := 0 to |entries|
          invariant Below(DescendAll(entries[..i]), node)
          invariant maxDepth == Max(old(maxDepth), Lift(nextDepth, ReachAll(node, DescendAll(entries[..i]))))
        {
          assert entries[..i + 1][..i] == entries[..i];
          ghost var seen := DescendAll(entries[..i]);
          assert DescendAll(entries[..i + 1]) == seen + Descend(entries[i]);
          ghost var m1 := maxDepth;
          TraverseEntry(node, entries[i], nextDepth);
          AppendMax(node, seen, Descend(entries[i]), nextDepth, old(maxDepth), m1, maxDepth);
        }
        assert entries[..|entries|] == entries;
      }
    }

    /** One entry of `node.children`. */
    method TraverseEntry(node: Value, child: Value, nextDepth: nat)
      requires child < node
      modifies this
      ensures Below(Descend(child), node)
      ensures maxDepth == Max(old(maxDepth), Lift(nextDepth, ReachAll(node, Descend(child))))
      decreases node, 0, 1
    {
      if child.Arr? {
        assert Descend(child) == child.items;
        TraverseItems(node, child.items, nextDepth);
      } else if child.Obj? {
        assert Descend(child) == [] + [child];
        Traverse(child, nextDepth);
        SnocMax(node, [], child, nextDepth, old(maxDepth), old(maxDepth), maxDepth);
      } else {
        assert Descend(child) == [];
      }
    }

    /** `child.forEach(c => traverse(c, nextDepth))`. */
    method TraverseItems(node: Value, items: seq<Value>, nextDepth: nat)
      requires Below(items, node)
      modifies this
      ensures maxDepth == Max(old(maxDepth), Lift(nextDepth, ReachAll(node, items)))
      decreases node, 0, 0
    {
      for j := 0 to |items|
        invariant maxDepth == Max(old(maxDepth), Lift(nextDepth, ReachAll(node, items[..j])))
      {
        assert items[..j + 1] == items[..j] + [items[j]];
        ghost var m1 := maxDepth;
        Traverse(items[j], nextDepth);
        SnocMax(node, items[..j], items[j], nextDepth, old(maxDepth), m1, maxDepth);
      }
      assert items[..|items|] == items;
    }

    /** The `Object.keys(node)` loop over the remaining properties. */
    method TraverseProps(node: Value, nextDepth: nat)
      modifies this
      ensures maxDepth == Max(old(maxDepth), Lift(nextDepth, ReachAll(node, PropNodes(node))))
      decreases node, 1, 0
    {
      var props := Props(node);
      for i := 0 to |props|
        invariant Below(FollowedVals(props[..i]), node)
        invariant maxDepth == Max(old(maxDepth), Lift(nextDepth, ReachAll(node, FollowedVals(props[..i]))))
      {
        assert props[..i + 1][..i] == props[..i];
        FollowedBelow(props[..i + 1], node);
        ghost var seen := FollowedVals(props[..i]);
        assert FollowedVals(props[..i + 1]) == seen + (if Followed(props[i]) then [props[i].val] else []);
        if props[i].key !in ["children", "name", "value"] && props[i].val.Obj? {
          var prop := props[i].val;
          ghost var m1 := maxDepth;
          Traverse(prop, nextDepth);
          SnocMax(node, seen, prop, nextDepth, old(maxDepth), m1, maxDepth);
        } else {
          assert FollowedVals(props[..i + 1]) == seen;
        }
      }
      assert props[..|props|] == props;
    }
  }

  /** `calculateNestingDepth(method)`. */
  method CalculateNestingDepth(m: Value) returns (r: nat)
    ensures r == NestingDepthOf(m)
    ensures (Get(m, "body").None? || !Truthy(Get(m, "body").value)) ==> r == 0
  {
    var tracker := new DepthTracker();
    var body := Get(m, "body");
    if body.Some? && Truthy(body.value) {
      tracker.Traverse(body.value, 0);
    }
    r := tracker.maxDepth;
  }
}
