// calculateFunctionSize: the number of statement nodes the traversal of a
// method's body meets, following `children` only.

module FunctionSize {
  import opened Text
  import opened Json

  /** A node is a statement when its lower-cased name is exactly one of these. */
  const StatementKinds: seq<string> :=
    ["expressionstatement", "returnstatement", "ifstatement", "forstatement",
     "whilestatement", "dostatement", "throwstatement", "switchstatement"]

  predicate IsStatementName(name: string)
  {
    name in StatementKinds
  }

  /** What one visited node adds to the size. */
  function Counted(v: Value): (r: nat)
    ensures r <= 1
    ensures r == 1 <==> IsStatementName(LowerName(v))
  {
    if IsStatementName(LowerName(v)) then 1 else 0
  }

  // ---------------------------------------------------------------------
  // The value the traversal computes
  // ---------------------------------------------------------------------

  /** What `traverse(v)` adds to `size`. */
  function Size(v: Value): nat
    decreases v, 1
  {
    if !Truthy(v) then 0 else Counted(v) + SizeAll(v, ChildNodes(v))
  }

  function SizeAll(parent: Value, s: seq<Value>): nat
    requires Below(s, parent)
    decreases parent, 0, |s|
  {
    if s == [] then 0 else SizeAll(parent, s[..|s| - 1]) + Size(s[|s| - 1])
  }

  /** `calculateFunctionSize(m)`: 0 unless the method record `m` has a body. */
  function FunctionSizeOf(m: Value): nat
  {
    match Get(m, "body")
    case Some(b) => Size(b)
    case None => 0
  }

  lemma SizeAllSnoc(parent: Value, s: seq<Value>, x: Value)
    requires Below(s, parent) && Below(s + [x], parent)
    ensures SizeAll(parent, s + [x]) == SizeAll(parent, s) + Size(x)
  {
    assert (s + [x])[..|s|] == s;
  }

  lemma {:induction false} SizeAllAppend(parent: Value, a: seq<Value>, b: seq<Value>)
    requires Below(a + b, parent)
    ensures Below(a, parent) && Below(b, parent)
    ensures SizeAll(parent, a + b) == SizeAll(parent, a) + SizeAll(parent, b)
    decreases |b|
  {
    assert Below(a, parent) && Below(b, parent) by {
      assert forall i :: 0 <= i < |a| ==> a[i] == (a + b)[i];
      assert forall i :: 0 <= i < |b| ==> b[i] == (a + b)[|a| + i];
    }
    if b == [] {
      assert a + b == a;
    } else {
      var b0, y := b[..|b| - 1], b[|b| - 1];
      assert b == b0 + [y];
      assert a + b == (a + b0) + [y];
      assert Below(a + b0, parent) by {
        assert forall i :: 0 <= i < |a + b0| ==> (a + b0)[i] == (a + b)[i];
      }
      SizeAllAppend(parent, a, b0);
      assert SizeAll(parent, a + b) == SizeAll(parent, a + b0) + Size(y) by {
        SizeAllSnoc(parent, a + b0, y);
      }
      assert SizeAll(parent, b) == SizeAll(parent, b0) + Size(y) by {
        SizeAllSnoc(parent, b0, y);
      }
    }
  }

  // ---------------------------------------------------------------------
  // What the size means
  // ---------------------------------------------------------------------

  /** The nodes `traverse(v)` visits, in visit order: `v` itself when it is
      truthy, then what its children lead to. */
  function Visited(v: Value): seq<Value>
    decreases v, 1
  {
    if !Truthy(v) then [] else [v] + VisitedAll(v, ChildNodes(v))
  }

  function VisitedAll(parent: Value, s: seq<Value>): seq<Value>
    requires Below(s, parent)
    decreases parent, 0, |s|
  {
    if s == [] then [] else VisitedAll(parent, s[..|s| - 1]) + Visited(s[|s| - 1])
  }

  /** How many values of `s` have a statement name. */
  function StatementCount(s: seq<Value>): nat
  {
    if s == [] then 0 else StatementCount(s[..|s| - 1]) + Counted(s[|s| - 1])
  }

  lemma {:induction false} StatementCountAppend(a: seq<Value>, b: seq<Value>)
    ensures StatementCount(a + b) == StatementCount(a) + StatementCount(b)
    decreases |b|
  {
    if b == [] {
      assert a + b == a;
    } else {
      var b0, y := b[..|b| - 1], b[|b| - 1];
      assert b == b0 + [y];
      assert (a + b)[..|a + b| - 1] == a + b0;
      StatementCountAppend(a, b0);
    }
  }

  /** The size is the number of visited nodes with a statement name. */
  lemma {:induction false} SizeCountsStatements(v: Value)
    ensures Size(v) == StatementCount(Visited(v))
    decreases v, 1, 0
  {
    if Truthy(v) {
      SizeAllCountsStatements(v, ChildNodes(v));
      StatementCountAppend([v], VisitedAll(v, ChildNodes(v)));
      assert StatementCount([v]) == StatementCount([]) + Counted(v);
    }
  }

  lemma {:induction false} SizeAllCountsStatements(parent: Value, s: seq<Value>)
    requires Below(s, parent)
    ensures SizeAll(parent, s) == StatementCount(VisitedAll(parent, s))
    decreases parent, 0, |s|
  {
    if s != [] {
      var init, last := s[..|s| - 1], s[|s| - 1];
      SizeAllCountsStatements(parent, init);
      SizeCountsStatements(last);
      StatementCountAppend(VisitedAll(parent, init), Visited(last));
    }
  }

  /** A wrapper adds one to the size when its name is a statement kind,
      and nothing otherwise. */
  lemma WrapSize(name: string, v: Value)
    requires v.Obj?
    ensures Size(Wrap(name, v)) == (if IsStatementName(ToLower(name)) then 1 else 0) + Size(v)
  {
    var w := Wrap(name, v);
    WrapChildren(name, v);
    assert SizeAll(w, [v]) == SizeAll(w, []) + Size(v);
  }

  /** Only `children` is followed: a property added under any other key
      but `name` leaves the size as it was, whatever it holds. */
  lemma OtherPropertyIgnored(fs: seq<Field>, f: Field)
    requires f.key != "children" && f.key != "name"
    ensures Size(Obj(fs + [f])) == Size(Obj(fs))
  {
    LookupSnocOther(fs, f, "children");
    LookupSnocOther(fs, f, "name");
    assert Get(Obj(fs + [f]), "children") == Get(Obj(fs), "children");
    assert Get(Obj(fs + [f]), "name") == Get(Obj(fs), "name");
    assert ChildNodes(Obj(fs + [f])) == ChildNodes(Obj(fs));
    SizeAllSame(Obj(fs + [f]), Obj(fs), ChildNodes(Obj(fs)));
  }

  /** `SizeAll` does not depend on the parent it is measured under. */
  lemma {:induction false} SizeAllSame(p: Value, q: Value, s: seq<Value>)
    requires Below(s, p) && Below(s, q)
    ensures SizeAll(p, s) == SizeAll(q, s)
    decreases |s|
  {
    if s != [] {
      SizeAllSame(p, q, s[..|s| - 1]);
    }
  }

  // ---------------------------------------------------------------------
  // The traversal, as the source runs it
  // ---------------------------------------------------------------------

  /** The closure's captured `size`. */
  class SizeCounter {
    var size: nat

    constructor()
      ensures size == 0
    {
      size := 0;
    }

    /** `traverse(node)`. */
    method Traverse(node: Value)
      modifies this
      ensures size == old(size) + Size(node)
      decreases node, 2, 0
    {
      if !Truthy(node) {
        return;
      }
      var name := LowerName(node);
      if name in StatementKinds {
        size := size + 1;
      }
      TraverseChildren(node);
    }

    /** The `Object.values(node.children)` loop. */
    method TraverseChildren(node: Value)
      modifies this
      ensures size == old(size) + SizeAll(node, ChildNodes(node))
      decreases node, 1, 0
    {
      var children := Get(node, "children");
      if children.Some? && Truthy(children.value) {
        var entries := Values(children.value);
        assert Below(entries, node);
        for i := 0 to |entries|
          invariant Below(DescendAll(entries[..i]), node)
          invariant size == old(size) + SizeAll(node, DescendAll(entries[..i]))
        {
          assert entries[..i + 1][..i] == entries[..i];
          ghost var seen := DescendAll(entries[..i]);
          assert DescendAll(entries[..i + 1]) == seen + Descend(entries[i]);
          TraverseEntry(node, entries[i]);
          SizeAllAppend(node, seen, Descend(entries[i]));
        }
        assert entries[..|entries|] == entries;
      }
    }

    /** One value of `node.children`: an array item by item, an object itself. */
    method TraverseEntry(node: Value, child: Value)
      requires child < node
      modifies this
      ensures Below(Descend(child), node)
      ensures size == old(size) + SizeAll(node, Descend(child))
      decreases node, 0, 1
    {
      if child.Arr? {
        assert Descend(child) == child.items;
        TraverseItems(node, child.items);
      } else if child.Obj? {
        assert Descend(child) == [] + [child];
        Traverse(child);
        SizeAllSnoc(node, [], child);
      } else {
        assert Descend(child) == [];
      }
    }

    /** `arr.forEach(traverse)`. */
    method TraverseItems(node: Value, items: seq<Value>)
      requires Below(items, node)
      modifies this
      ensures size == old(size) + SizeAll(node, items)
      decreases node, 0, 0
    {
      for j := 0 to |items|
        invariant size == old(size) + SizeAll(node, items[..j])
      {
        assert items[..j + 1] == items[..j] + [items[j]];
        Traverse(items[j]);
        SizeAllSnoc(node, items[..j], items[j]);
      }
      assert items[..|items|] == items;
    }
  }

  /** `calculateFunctionSize(method)`. */
  method CalculateFunctionSize(m: Value) returns (r: nat)
    ensures r == FunctionSizeOf(m)
    ensures Get(m, "body").None? ==> r == 0
  {
    var counter := new SizeCounter();
    var body := Get(m, "body");
    if body.Some? && Truthy(body.value) {
      counter.Traverse(body.value);
    }
    r := counter.size;
  }
}
