// The loosely typed JavaScript values that the static analyzer's metric
// traversals walk: a method record and the syntax tree hanging below it.

module Json {
  import opened Wrappers
  import opened Text

  /** A JavaScript value as the traversals see it. Numbers and booleans only
      matter through their truthiness; an object is its own keys and values
      in key order. */
  datatype Value =
    | Null                       // null and undefined
    | Prim(truthy: bool)         // a number or a boolean
    | Str(s: string)
    | Arr(items: seq<Value>)
    | Obj(fields: seq<Field>)
  datatype Field = Field(key: string, val: Value)

  /** JavaScript truthiness (`if (v)`); NaN and -0 are not modelled. */
  predicate Truthy(v: Value)
  {
    match v
    case Null => false
    case Prim(t) => t
    case Str(s) => s != ""
    case _ => true
  }

  /** Every value of `s` lies strictly inside `parent`. */
  ghost predicate Below(s: seq<Value>, parent: Value)
  {
    forall i :: 0 <= i < |s| ==> s[i] < parent
  }

  function Lookup(fs: seq<Field>, key: string): (r: Option<Value>)
    ensures r.Some? ==> exists i :: 0 <= i < |fs| && fs[i].key == key && r.value == fs[i].val
    ensures r.None? ==> forall i :: 0 <= i < |fs| ==> fs[i].key != key
  {
    if fs == [] then None
    else if fs[0].key == key then Some(fs[0].val)
    else Lookup(fs[1..], key)
  }

  /** `v[key]`, absent unless `v` is an object holding `key`. */
  function Get(v: Value, key: string): (r: Option<Value>)
    ensures r.Some? ==> r.value < v
  {
    if v.Obj? then
      var r := Lookup(v.fields, key);
      assert r.Some? ==> exists i :: 0 <= i < |v.fields| && r.value == v.fields[i].val;
      r
    else None
  }

  /** The values `Object.values(v)` lists (and `for (k in v)` reaches as
      `v[k]`): the items of an array, the field values of an object. The
      characters of a string are left out: no traversal descends into a
      one-character string. */
  function Values(v: Value): (r: seq<Value>)
    ensures Below(r, v)
  {
    match v
    case Arr(items) =>
      assert forall i :: 0 <= i < |items| ==> items[i] in items;
      items
    case Obj(fields) =>
      var r := seq(|fields|, i requires 0 <= i < |fields| => fields[i].val);
      assert forall i :: 0 <= i < |fields| ==> fields[i] in fields;
      r
    case _ => []
  }

  /** `node.name?.toLowerCase?.() || ""`: the lower-cased name when it is a
      string, the empty string otherwise. */
  function LowerName(v: Value): string
  {
    match Get(v, "name")
    case Some(Str(s)) => ToLower(s)
    case _ => ""
  }

  /** One entry of `node.children`: an array hands each of its items to the
      recursive call, an object is handed over itself, a primitive is skipped. */
  function Descend(e: Value): (r: seq<Value>)
    ensures forall i :: 0 <= i < |r| ==> r[i] == e || r[i] < e
  {
    match e
    case Arr(items) =>
      assert forall i :: 0 <= i < |items| ==> items[i] in items;
      items
    case Obj(_) => [e]
    case _ => []
  }

  function DescendAll(es: seq<Value>): (r: seq<Value>)
  {
    if es == [] then [] else DescendAll(es[..|es| - 1]) + Descend(es[|es| - 1])
  }

  lemma {:induction false} DescendAllBelow(es: seq<Value>, parent: Value)
    requires Below(es, parent)
    ensures Below(DescendAll(es), parent)
    decreases |es|
  {
    if es != [] {
      DescendAllBelow(es[..|es| - 1], parent);
      assert es[|es| - 1] < parent;
    }
  }

  /** What the metric traversals recurse into for `node.children`, in visit
      order: nothing when the property is absent or falsy. */
  function ChildNodes(v: Value): (r: seq<Value>)
    ensures Below(r, v)
  {
    match Get(v, "children")
    case Some(c) =>
      var es := Values(c);
      assert Below(es, v);
      DescendAllBelow(es, v);
      DescendAll(es)
    case None => []
  }

  /** A key added after the others leaves every other key's lookup alone. */
  lemma {:induction false} LookupSnocOther(fs: seq<Field>, f: Field, key: string)
    requires f.key != key
    ensures Lookup(fs + [f], key) == Lookup(fs, key)
    decreases |fs|
  {
    if fs == [] {
      assert Lookup([f], key) == Lookup([f][1..], key);
    } else {
      assert (fs + [f])[1..] == fs[1..] + [f];
      LookupSnocOther(fs[1..], f, key);
    }
  }

  /** A key added after the others, and held by none of them, is found
      with the value it was added with. */
  lemma {:induction false} LookupSnocNew(fs: seq<Field>, f: Field)
    requires Lookup(fs, f.key).None?
    ensures Lookup(fs + [f], f.key) == Some(f.val)
    decreases |fs|
  {
    if fs == [] {
      assert [f][0] == f;
    } else {
      assert (fs + [f])[1..] == fs[1..] + [f];
      LookupSnocNew(fs[1..], f);
    }
  }

  /** A node named `name` whose only other property is a `children` array
      holding `v`. */
  function Wrap(name: string, v: Value): Value
  {
    Obj([Field("name", Str(name)), Field("children", Arr([v]))])
  }

  /** The traversals see a wrapper's name, and reach the wrapped object
      through its children. */
  lemma WrapChildren(name: string, v: Value)
    requires v.Obj?
    ensures LowerName(Wrap(name, v)) == ToLower(name)
    ensures ChildNodes(Wrap(name, v)) == [v]
  {
    var w := Wrap(name, v);
    var fs := w.fields;
    assert fs[1..] == [Field("children", Arr([v]))];
    assert "name" != "children";
    assert Lookup(fs, "children") == Lookup(fs[1..], "children");
    assert Get(w, "children") == Some(Arr([v]));
    assert Values(Arr([v])) == [v];
    assert DescendAll([v]) == DescendAll([]) + Descend(v);
  }
}
