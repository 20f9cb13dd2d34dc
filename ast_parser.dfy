// The method-body analyses of the static analyzer's Java parser: the if/else
// tree, the loop and conditional tags of a method, the loop-nesting forest and
// its two metrics, over a simplified java-parser syntax tree.

module AstParser {
  import opened Wrappers
  import opened Seqs
  import opened Text
  import opened CondTree

  /** A java-parser syntax tree: a token carries its `image`; a rule node
      carries its `name` and its `children` object, whose values are arrays,
      listed in key order. */
  datatype Cst = Token(image: string) | Node(name: string, children: seq<Field>)
  datatype Field = Field(key: string, items: seq<Cst>)

  function ItemsOf(fs: seq<Field>): (r: seq<Cst>)
    ensures forall k :: k in r ==> exists i :: 0 <= i < |fs| && k in fs[i].items
  {
    if fs == [] then [] else fs[0].items + ItemsOf(fs[1..])
  }

  /** The children in the order `Object.values(node.children)` visits them. */
  function Kids(n: Cst): (r: seq<Cst>)
    ensures forall k :: k in r ==> k < n
    ensures forall i :: 0 <= i < |r| ==> r[i] < n
  {
    if n.Token? then []
    else
      var r := ItemsOf(n.children);
      assert forall i :: 0 <= i < |r| ==> r[i] in r;
      r
  }

  function Lookup(fs: seq<Field>, key: string): (r: Option<seq<Cst>>)
    ensures r.Some? ==> exists i :: 0 <= i < |fs| && r.value == fs[i].items
  {
    if fs == [] then None
    else if fs[0].key == key then Some(fs[0].items)
    else Lookup(fs[1..], key)
  }

  /** `node.children?.[key]`. */
  function ChildArray(n: Cst, key: string): (r: Option<seq<Cst>>)
    ensures r.Some? ==> forall i :: 0 <= i < |r.value| ==> r.value[i] < n
  {
    if n.Token? then None else Lookup(n.children, key)
  }

  /** `node.children?.[key]?.[i]`. */
  function ChildAt(n: Cst, key: string, i: nat): (r: Option<Cst>)
    ensures r.Some? ==> r.value < n
  {
    match ChildArray(n, key)
    case Some(items) => if i < |items| then Some(items[i]) else None
    case None => None
  }

  /** Every node of `s` lies strictly inside `parent`. */
  ghost predicate Below(s: seq<Cst>, parent: Cst)
  {
    forall i :: 0 <= i < |s| ==> s[i] < parent
  }

  predicate NameIs(n: Cst, name: string)
  {
    n.Node? && n.name == name
  }

  predicate NameIn(n: Cst, names: seq<string>)
  {
    n.Node? && n.name in names
  }

  const IfNames: seq<string> := ["ifStatement", "ifThenStatement", "ifThenElseStatement"]
  const BlockNames: seq<string> := ["block", "blockStatements", "statement"]
  const SimpleStatementNames: seq<string> :=
    ["expressionStatement", "statementExpression", "returnStatement",
     "throwStatement", "breakStatement", "continueStatement"]

  // ---------------------------------------------------------------------
  // parseIfStatement / collectStatements
  // ---------------------------------------------------------------------

  /** `parseIfStatement`: the then branch `statement[0]` becomes a statement
      list; an else branch `statement[1]` whose name contains "if" becomes a
      nested IfStatement object, any other else branch a statement list. */
  function ParseIfStatement(n: Cst): (r: Cond)
    ensures r.kind == IfStatementKind
    decreases n, 1, 0
  {
    var thenBlock := match ChildAt(n, "statement", 0)
      case Some(s) => CollectStatements(s)
      case None => [];
    var elseBlock := match ChildAt(n, "statement", 1)
      case None => NoElse
      case Some(e) =>
        if e.Node? && Contains(e.name, "if") then ElseIf(ParseIfStatement(e))
        else ElseList(CollectStatements(e));
    Cond(IfStatementKind, thenBlock, elseBlock)
  }

  /** `collectStatements`: an if becomes one IfStatement entry, a simple
      statement one Statement entry; blocks and every other node contribute
      the entries of their children, in order. */
  function CollectStatements(n: Cst): (r: seq<Cond>)
    decreases n, 2, 0
  {
    if NameIn(n, IfNames) then [ParseIfStatement(n)]
    else if NameIn(n, BlockNames) then CollectAll(n, Kids(n))
    else if NameIn(n, SimpleStatementNames) then [Statement()]
    else CollectAll(n, Kids(n))
  }

  function CollectAll(parent: Cst, s: seq<Cst>): (r: seq<Cond>)
    requires Below(s, parent)
    decreases parent, 0, |s|
  {
    if s == [] then [] else CollectStatements(s[0]) + CollectAll(parent, s[1..])
  }

  /** The trees the parser builds: IfStatement nodes whose else-if is again
      an IfStatement, and Statement leaves without branches. */
  predicate Shaped(c: Cond)
  {
    if c.kind == StatementKind then c.thenBlock == [] && c.elseBlock == NoElse
    else
      c.kind == IfStatementKind
      && (forall x :: x in c.thenBlock ==> Shaped(x))
      && match c.elseBlock
         case NoElse => true
         case ElseIf(e) => e.kind == IfStatementKind && Shaped(e)
         case ElseList(items) => forall x :: x in items ==> Shaped(x)
  }

  lemma {:induction false} ParseIfShaped(n: Cst)
    ensures Shaped(ParseIfStatement(n))
    decreases n, 1, 0
  {
    match ChildAt(n, "statement", 0) {
      case Some(s) => CollectShaped(s);
      case None =>
    }
    match ChildAt(n, "statement", 1) {
      case None =>
      case Some(e) =>
        if e.Node? && Contains(e.name, "if") {
          ParseIfShaped(e);
        } else {
          CollectShaped(e);
        }
    }
  }

  lemma {:induction false} CollectShaped(n: Cst)
    ensures forall x :: x in CollectStatements(n) ==> Shaped(x)
    decreases n, 2, 0
  {
    if NameIn(n, IfNames) {
      ParseIfShaped(n);
    } else if NameIn(n, BlockNames) || !NameIn(n, SimpleStatementNames) {
      CollectAllShaped(n, Kids(n));
    }
  }

  lemma {:induction false} CollectAllShaped(parent: Cst, s: seq<Cst>)
    requires Below(s, parent)
    ensures forall x :: x in CollectAll(parent, s) ==> Shaped(x)
    decreases parent, 0, |s|
  {
    if s != [] {
      CollectShaped(s[0]);
      CollectAllShaped(parent, s[1..]);
    }
  }

  // ---------------------------------------------------------------------
  // findLoopsAndConditionals
  // ---------------------------------------------------------------------

  /** One update `findLoopsAndConditionals` makes to the method object:
      `addUnique` to `loops` or `conditionals`, a plain `push` to
      `conditionals`, or a push of an if tree to `conditionalsTree`. */
  datatype Event =
    | AddLoop(tag: string)
    | AddConditional(tag: string)
    | PushConditional(tag: string)
    | PushTree(tree: Cond)

  /** The images of the tokens below `n`, in order (`gatherTokens`). */
  function TokenImages(n: Cst): seq<string>
    decreases n, 1, 0
  {
    if n.Token? then [n.image] else TokenImagesAll(n, Kids(n))
  }

  function TokenImagesAll(parent: Cst, s: seq<Cst>): seq<string>
    requires Below(s, parent)
    decreases parent, 0, |s|
  {
    if s == [] then [] else TokenImagesAll(parent, s[..|s| - 1]) + TokenImages(s[|s| - 1])
  }

  /** The updates for the `case` and `default` tokens of a switch block. */
  function SwitchTokenEvents(images: seq<string>): seq<Event>
  {
    if images == [] then [] else SwitchTokenEvents(images[..|images| - 1]) + TokenEvents(images[|images| - 1])
  }

  /** The updates for one token of a switch block. */
  function TokenEvents(t: string): seq<Event>
  {
    (if t == "case" then [AddConditional("case")] else [])
    + (if t == "default" then [AddConditional("default")] else [])
  }

  lemma SwitchTokenEventsSnoc(prefix: seq<Event>, images: seq<string>, i: nat)
    requires i < |images|
    ensures prefix + SwitchTokenEvents(images[..i + 1])
            == (prefix + SwitchTokenEvents(images[..i])) + TokenEvents(images[i])
  {
    assert images[..i + 1][..i] == images[..i];
  }

  /** The updates a non-if node makes for its own name. */
  function OwnEvents(n: Cst): seq<Event>
  {
    if n.Token? then []
    else if n.name == "switchStatement" then
      [AddConditional("switch")]
      + match ChildAt(n, "switchBlock", 0)
        case Some(b) => SwitchTokenEvents(TokenImages(b))
        case None => []
    else if n.name == "whileStatement" then [AddLoop("while")]
    else if n.name == "enhancedForStatement" then [AddLoop("forEach")]
    else if n.name == "basicForStatement" then [AddLoop("for")]
    else if n.name == "doStatement" then [AddLoop("doWhile")]
    else if n.name == "superMethodInvocation" then [PushConditional("superCall")]
    else if n.name == "thisExpression" then [PushConditional("thisRef")]
    else if n.name == "tryStatement" then [AddConditional("try")]
    else if n.name == "catchClause" then [AddConditional("catch")]
    else if n.name == "finally" then [AddConditional("finally")]
    else if n.name == "throwStatement" then [AddConditional("throw")]
    else if n.name == "returnStatement" then [AddConditional("return")]
    else if n.name == "breakStatement" then [AddConditional("break")]
    else if n.name == "continueStatement" then [AddConditional("continue")]
    else if n.name == "synchronizedStatement" then [AddConditional("synchronized")]
    else []
  }

  /** Every update `findLoopsAndConditionals(n, obj, nested)` makes, in order:
      an if records "if", pushes its tree unless nested and scans only its
      `statement` children as nested; any other node records its own tags and
      scans all its children. */
  function Events(n: Cst, nested: bool): seq<Event>
    decreases n, 1, 0
  {
    if NameIn(n, IfNames) then
      [AddConditional("if")]
      + (if nested then [] else [PushTree(ParseIfStatement(n))])
      + match ChildArray(n, "statement")
        case Some(st) => EventsAll(n, st, true)
        case None => []
    else OwnEvents(n) + EventsAll(n, Kids(n), nested)
  }

  function EventsAll(parent: Cst, s: seq<Cst>, nested: bool): seq<Event>
    requires Below(s, parent)
    decreases parent, 0, |s|
  {
    if s == [] then [] else EventsAll(parent, s[..|s| - 1], nested) + Events(s[|s| - 1], nested)
  }

  lemma EventsAllSnoc(parent: Cst, s: seq<Cst>, i: nat, nested: bool)
    requires Below(s, parent) && i < |s|
    ensures Below(s[..i], parent) && Below(s[..i + 1], parent)
    ensures EventsAll(parent, s[..i + 1], nested) == EventsAll(parent, s[..i], nested) + Events(s[i], nested)
  {
    assert s[..i + 1][..i] == s[..i];
  }

  /** The fields of the method object the scan updates. */
  datatype Facts = Facts(loops: seq<string>, conditionals: seq<string>, conditionalsTree: Option<seq<Cond>>)

  function AddUnique(list: seq<string>, item: string): seq<string>
  {
    if item in list then list else list + [item]
  }

  function Step(f: Facts, e: Event): Facts
  {
    match e
    case AddLoop(t) => f.(loops := AddUnique(f.loops, t))
    case AddConditional(t) => f.(conditionals := AddUnique(f.conditionals, t))
    case PushConditional(t) => f.(conditionals := f.conditionals + [t])
    case PushTree(c) => f.(conditionalsTree := Some(f.conditionalsTree.GetOr([]) + [c]))
  }

  function Apply(f: Facts, es: seq<Event>): Facts
  {
    if es == [] then f else Step(Apply(f, es[..|es| - 1]), es[|es| - 1])
  }

  lemma {:induction false} ApplyAppend(f: Facts, a: seq<Event>, b: seq<Event>)
    ensures Apply(f, a + b) == Apply(Apply(f, a), b)
    decreases |b|
  {
    if b == [] {
      assert a + b == a;
    } else {
      assert (a + b)[..|a + b| - 1] == a + b[..|b| - 1];
      ApplyAppend(f, a, b[..|b| - 1]);
    }
  }

  /** `addUnique` keeps `loops` free of duplicates, and the loops recorded
      are exactly the old ones and the tags of the loop updates. */
  lemma {:induction false} ApplyLoops(f: Facts, es: seq<Event>)
    requires NoDup(f.loops)
    ensures NoDup(Apply(f, es).loops)
    ensures forall t :: t in Apply(f, es).loops <==> t in f.loops || AddLoop(t) in es
  {
    if es != [] {
      ApplyLoops(f, es[..|es| - 1]);
      assert forall e :: e in es <==> e in es[..|es| - 1] || e == es[|es| - 1];
    }
  }

  /** A conditional tag that is only ever added through `addUnique` occurs at
      most once. */
  lemma {:induction false} ApplyConditionalOnce(f: Facts, es: seq<Event>, t: string)
    requires Occurrences(f.conditionals, t) <= 1
    requires PushConditional(t) !in es
    ensures Occurrences(Apply(f, es).conditionals, t) <= 1
  {
    if es != [] {
      var g := Apply(f, es[..|es| - 1]);
      ApplyConditionalOnce(f, es[..|es| - 1], t);
      var e := es[|es| - 1];
      if e.AddConditional? && e.tag !in g.conditionals {
        OccurrencesAppend(g.conditionals, [e.tag], t);
      } else if e.PushConditional? {
        OccurrencesAppend(g.conditionals, [e.tag], t);
      }
    }
  }

  /** A tag pushed without the uniqueness check (and never added with it) is
      recorded once per push. */
  lemma {:induction false} ApplyPushCount(f: Facts, es: seq<Event>, t: string)
    requires AddConditional(t) !in es
    ensures Occurrences(Apply(f, es).conditionals, t)
            == Occurrences(f.conditionals, t) + Occurrences(es, PushConditional(t))
  {
    if es != [] {
      var g := Apply(f, es[..|es| - 1]);
      ApplyPushCount(f, es[..|es| - 1], t);
      var e := es[|es| - 1];
      if e.AddConditional? && e.tag !in g.conditionals {
        OccurrencesAppend(g.conditionals, [e.tag], t);
      } else if e.PushConditional? {
        OccurrencesAppend(g.conditionals, [e.tag], t);
      }
    }
  }

  /** The tags `addUnique` records as conditionals. */
  const UniqueConditionalTags: set<string> :=
    {"if", "switch", "case", "default", "try", "catch", "finally", "throw",
     "return", "break", "continue", "synchronized"}

  /** Which updates a scan can make: `superCall` and `thisRef` are the only
      plain pushes, every other conditional tag goes through `addUnique`,
      and a nested scan pushes no tree. */
  predicate EventsWellTagged(es: seq<Event>, nested: bool)
  {
    forall e :: e in es ==>
      (e.AddConditional? ==> e.tag in UniqueConditionalTags)
      && (e.PushConditional? ==> e.tag == "superCall" || e.tag == "thisRef")
      && (e.AddLoop? ==> e.tag in {"while", "forEach", "for", "doWhile"})
      && (nested ==> !e.PushTree?)
  }

  lemma {:induction false} SwitchTokenEventsTagged(images: seq<string>)
    ensures EventsWellTagged(SwitchTokenEvents(images), true)
  {
    if images != [] {
      SwitchTokenEventsTagged(images[..|images| - 1]);
    }
  }

  lemma WellTaggedAppend(a: seq<Event>, b: seq<Event>, nested: bool)
    requires EventsWellTagged(a, nested) && EventsWellTagged(b, nested)
    ensures EventsWellTagged(a + b, nested)
  {
    assert forall e :: e in a + b ==> e in a || e in b;
  }

  lemma OwnEventsTagged(n: Cst, nested: bool)
    ensures EventsWellTagged(OwnEvents(n), nested)
  {
    if n.Token? {
    } else if n.name == "switchStatement" {
      match ChildAt(n, "switchBlock", 0) {
        case Some(b) =>
          SwitchTokenEventsTagged(TokenImages(b));
          WellTaggedAppend([AddConditional("switch")], SwitchTokenEvents(TokenImages(b)), nested);
        case None =>
      }
    } else if n.name in LoopNames {
      LoopEventsTagged(n, nested);
    } else {
      OtherEventsTagged(n, nested);
    }
  }

  const LoopNames: set<string> := {"whileStatement", "enhancedForStatement", "basicForStatement", "doStatement"}

  lemma LoopEventsTagged(n: Cst, nested: bool)
    requires !n.Token? && n.name in LoopNames
    ensures EventsWellTagged(OwnEvents(n), nested)
  {
  }

  lemma OtherEventsTagged(n: Cst, nested: bool)
    requires !n.Token? && n.name != "switchStatement" && n.name !in LoopNames
    ensures EventsWellTagged(OwnEvents(n), nested)
  {
  }

  lemma {:induction false} EventsTagged(n: Cst, nested: bool)
    ensures EventsWellTagged(Events(n, nested), nested)
    decreases n, 1, 0
  {
    if NameIn(n, IfNames) {
      var head := [AddConditional("if")] + (if nested then [] else [PushTree(ParseIfStatement(n))]);
      match ChildArray(n, "statement") {
        case Some(st) =>
          EventsAllTagged(n, st, true);
          WellTaggedAppend(head, EventsAll(n, st, true), nested);
        case None =>
          assert Events(n, nested) == head + [];
      }
    } else {
      OwnEventsTagged(n, nested);
      EventsAllTagged(n, Kids(n), nested);
      WellTaggedAppend(OwnEvents(n), EventsAll(n, Kids(n), nested), nested);
    }
  }

  lemma {:induction false} EventsAllTagged(parent: Cst, s: seq<Cst>, nested: bool)
    requires Below(s, parent)
    ensures EventsWellTagged(EventsAll(parent, s, nested), nested)
    decreases parent, 0, |s|
  {
    if s != [] {
      EventsAllTagged(parent, s[..|s| - 1], nested);
      EventsTagged(s[|s| - 1], nested);
      WellTaggedAppend(EventsAll(parent, s[..|s| - 1], nested), Events(s[|s| - 1], nested), nested);
    }
  }

  /** After a scan of a method body from an empty method object: `loops` has
      no duplicates, every conditional other than `superCall` and `thisRef`
      occurs at most once, and `superCall` occurs once per
      `superMethodInvocation` update. */
  lemma ScanFacts(n: Cst, nested: bool)
    ensures var f := Apply(Facts([], [], None), Events(n, nested));
            NoDup(f.loops)
            && (forall t :: t != "superCall" && t != "thisRef" ==> Occurrences(f.conditionals, t) <= 1)
            && Occurrences(f.conditionals, "superCall")
               == Occurrences(Events(n, nested), PushConditional("superCall"))
  {
    var es := Events(n, nested);
    var f0 := Facts([], [], None);
    EventsTagged(n, nested);
    ApplyLoops(f0, es);
    forall t | t != "superCall" && t != "thisRef"
      ensures Occurrences(Apply(f0, es).conditionals, t) <= 1
    {
      ApplyConditionalOnce(f0, es, t);
    }
    assert AddConditional("superCall") !in es;
    ApplyPushCount(f0, es, "superCall");
  }

  /** The method object `findLoopsAndConditionals` fills in. */
  class MethodObj {
    var loops: seq<string>
    var conditionals: seq<string>
    var conditionalsTree: Option<seq<Cond>>

    function State(): Facts
      reads this
    {
      Facts(loops, conditionals, conditionalsTree)
    }

    constructor ()
      ensures State() == Facts([], [], None)
    {
      loops := [];
      conditionals := [];
      conditionalsTree := None;
    }

    method AddUniqueConditional(item: string)
      modifies this`conditionals
      ensures conditionals == AddUnique(old(conditionals), item)
    {
      if item !in conditionals {
        conditionals := conditionals + [item];
      }
    }

    method AddUniqueLoop(item: string)
      modifies this`loops
      ensures loops == AddUnique(old(loops), item)
    {
      if item !in loops {
        loops := loops + [item];
      }
    }

    /** `findLoopsAndConditionals(node, this, isNested)`. */
    method FindLoopsAndConditionals(node: Cst, isNested: bool)
      modifies this
      ensures State() == Apply(old(State()), Events(node, isNested))
      decreases node, 3
    {
      if NameIn(node, IfNames) {
        ScanIf(node, isNested);
        return;
      }
      ghost var s0 := State();
      OwnUpdates(node);
      ghost var s1 := State();
      var kids := Kids(node);
      ScanAll(node, kids, isNested);
      ApplyAppend(s0, OwnEvents(node), EventsAll(node, kids, isNested));
    }

    /** The if branch: record "if", push the tree unless nested, and scan
        the `statement` children as nested. */
    method ScanIf(node: Cst, isNested: bool)
      requires NameIn(node, IfNames)
      modifies this
      ensures State() == Apply(old(State()), Events(node, isNested))
      decreases node, 2
    {
      ghost var s0 := State();
      var ifTree := ParseIfStatement(node);
      AddUniqueConditional("if");
      assert [AddConditional("if")][..0] == [];
      assert State() == Apply(s0, [AddConditional("if")]);
      ghost var head := [AddConditional("if")];
      if !isNested {
        conditionalsTree := Some(conditionalsTree.GetOr([]) + [ifTree]);
        assert (head + [PushTree(ifTree)])[..1] == head;
        head := head + [PushTree(ifTree)];
      }
      assert State() == Apply(s0, head);
      match ChildArray(node, "statement") {
        case Some(st) =>
          ScanAll(node, st, true);
          ApplyAppend(s0, head, EventsAll(node, st, true));
        case None =>
          assert head + [] == head;
      }
    }

    /** The `forEach` over an array of children. */
    method ScanAll(parent: Cst, s: seq<Cst>, nested: bool)
      requires Below(s, parent)
      modifies this
      ensures State() == Apply(old(State()), EventsAll(parent, s, nested))
      decreases parent, 1
    {
      ghost var s0 := State();
      var i := 0;
      while i < |s|
        invariant 0 <= i <= |s|
        invariant State() == Apply(s0, EventsAll(parent, s[..i], nested))
      {
        ScanOne(parent, s, i, nested, s0);
        i := i + 1;
      }
      assert s[..|s|] == s;
    }

    /** One step of that `forEach`. */
    method ScanOne(parent: Cst, s: seq<Cst>, i: nat, nested: bool, ghost s0: Facts)
      requires Below(s, parent) && i < |s|
      requires State() == Apply(s0, EventsAll(parent, s[..i], nested))
      modifies this
      ensures State() == Apply(s0, EventsAll(parent, s[..i + 1], nested))
      decreases parent, 0
    {
      EventsAllSnoc(parent, s, i, nested);
      FindLoopsAndConditionals(s[i], nested);
      ApplyAppend(s0, EventsAll(parent, s[..i], nested), Events(s[i], nested));
    }

    /** The updates a node that is not an if makes for its own name. */
    method OwnUpdates(node: Cst)
      requires !NameIn(node, IfNames)
      modifies this
      ensures State() == Apply(old(State()), OwnEvents(node))
    {
      if node.Token? {
        return;
      }
      if node.name == "switchStatement" {
        SwitchUpdates(node);
      } else {
        TagUpdates(node);
      }
    }

    /** A switch records "switch", then "case" and "default" for each such
        token of its switch block. */
    method SwitchUpdates(node: Cst)
      requires node.Node? && node.name == "switchStatement"
      modifies this
      ensures State() == Apply(old(State()), OwnEvents(node))
    {
      ghost var s0 := State();
      AddUniqueConditional("switch");
      assert State() == Apply(s0, [AddConditional("switch")]);
      match ChildAt(node, "switchBlock", 0) {
        case Some(b) =>
          var toks := TokenImages(b);
          var i := 0;
          while i < |toks|
            invariant 0 <= i <= |toks|
            invariant State() == Apply(s0, [AddConditional("switch")] + SwitchTokenEvents(toks[..i]))
          {
            SwitchToken(toks[i], s0, [AddConditional("switch")] + SwitchTokenEvents(toks[..i]));
            SwitchTokenEventsSnoc([AddConditional("switch")], toks, i);
            i := i + 1;
          }
          assert toks[..|toks|] == toks;
        case None =>
      }
    }

    /** One token of a switch block: "case" and "default" are recorded. */
    method SwitchToken(tok: string, ghost s0: Facts, ghost pre: seq<Event>)
      requires State() == Apply(s0, pre)
      modifies this
      ensures State() == Apply(s0, pre + TokenEvents(tok))
    {
      ghost var c := if tok == "case" then [AddConditional("case")] else [];
      ghost var d := if tok == "default" then [AddConditional("default")] else [];
      ApplyAppend(s0, pre, c);
      ApplyAppend(s0, pre + c, d);
      assert pre + TokenEvents(tok) == (pre + c) + d;
      if tok == "case" {
        AddUniqueConditional("case");
      }
      if tok == "default" {
        AddUniqueConditional("default");
      }
    }

    /** The tag a loop, a try, a return and the like records. */
    method TagUpdates(node: Cst)
      requires node.Node? && node.name != "switchStatement"
      modifies this
      ensures State() == Apply(old(State()), OwnEvents(node))
    {
      var name := node.name;
      if name == "whileStatement" {
        AddUniqueLoop("while");
      } else if name == "enhancedForStatement" {
        AddUniqueLoop("forEach");
      } else if name == "basicForStatement" {
        AddUniqueLoop("for");
      } else if name == "doStatement" {
        AddUniqueLoop("doWhile");
      } else if name == "superMethodInvocation" {
        conditionals := conditionals + ["superCall"];
      } else if name == "thisExpression" {
        conditionals := conditionals + ["thisRef"];
      } else if name == "tryStatement" {
        AddUniqueConditional("try");
      } else if name == "catchClause" {
        AddUniqueConditional("catch");
      } else if name == "finally" {
        AddUniqueConditional("finally");
      } else if name == "throwStatement" {
        AddUniqueConditional("throw");
      } else if name == "returnStatement" {
        AddUniqueConditional("return");
      } else if name == "breakStatement" {
        AddUniqueConditional("break");
      } else if name == "continueStatement" {
        AddUniqueConditional("continue");
      } else if name == "synchronizedStatement" {
        AddUniqueConditional("synchronized");
      }
    }
  }

  // ---------------------------------------------------------------------
  // buildLoopTree / calculateMaxDepth / countTotalLoops
  // ---------------------------------------------------------------------

  /** One loop of the loop-nesting forest: its kind, the loops directly
      inside its body and its nesting depth (0 for an outermost loop). */
  datatype LoopNode = LoopNode(kind: string, nested: seq<LoopNode>, depth: nat)

  function LoopKind(n: Cst): Option<string>
  {
    if NameIs(n, "whileStatement") then Some("while")
    else if NameIs(n, "basicForStatement") then Some("for")
    else if NameIs(n, "enhancedForStatement") then Some("forEach")
    else if NameIs(n, "doStatement") then Some("doWhile")
    else None
  }

  /** Where the scan of a loop body continues: the first `blockStatements` of
      a `block` body, otherwise the body itself. */
  function BodyEntry(body: Cst): (r: Cst)
    ensures r == body || r < body
  {
    if NameIs(body, "block") && ChildAt(body, "blockStatements", 0).Some? then
      ChildAt(body, "blockStatements", 0).value
    else body
  }

  /** The loops `buildLoopTree(n, [], depth)` pushes, in order: a loop with a
      body becomes one node whose nested forest is built from its body one
      level deeper; `blockStatements` scans the `statement` of each
      `blockStatement`; any other node scans all its children. */
  function LoopForest(n: Cst, depth: nat): seq<LoopNode>
    decreases n, 1, 0
  {
    if LoopKind(n).Some? && ChildAt(n, "statement", 0).Some? then
      var body := ChildAt(n, "statement", 0).value;
      [LoopNode(LoopKind(n).value, LoopForest(BodyEntry(body), depth + 1), depth)]
    else if NameIs(n, "blockStatements") && ChildArray(n, "blockStatement").Some? then
      BlockStatementsForest(n, ChildArray(n, "blockStatement").value, depth)
    else ForestAll(n, Kids(n), depth)
  }

  function BlockStatementsForest(parent: Cst, stmts: seq<Cst>, depth: nat): seq<LoopNode>
    requires Below(stmts, parent)
    decreases parent, 0, |stmts|
  {
    if stmts == [] then []
    else
      var last := stmts[|stmts| - 1];
      BlockStatementsForest(parent, stmts[..|stmts| - 1], depth)
      + match ChildAt(last, "statement", 0)
        case Some(s) => LoopForest(s, depth)
        case None => []
  }

  function ForestAll(parent: Cst, s: seq<Cst>, depth: nat): seq<LoopNode>
    requires Below(s, parent)
    decreases parent, 0, |s|
  {
    if s == [] then [] else ForestAll(parent, s[..|s| - 1], depth) + LoopForest(s[|s| - 1], depth)
  }

  /** Every root of `forest` has depth `d`, and below each loop the depths
      go one further. */
  predicate DepthsFrom(forest: seq<LoopNode>, d: nat)
  {
    forall l :: l in forest ==> l.depth == d && DepthsFrom(l.nested, d + 1)
  }

  lemma DepthsFromAppend(a: seq<LoopNode>, b: seq<LoopNode>, d: nat)
    requires DepthsFrom(a, d) && DepthsFrom(b, d)
    ensures DepthsFrom(a + b, d)
  {
    assert forall l :: l in a + b ==> l in a || l in b;
  }

  /** In the forest `buildLoopTree` builds, a nested loop's depth is its
      parent's depth plus one. */
  lemma {:induction false} LoopForestDepths(n: Cst, d: nat)
    ensures DepthsFrom(LoopForest(n, d), d)
    decreases n, 1, 0
  {
    if LoopKind(n).Some? && ChildAt(n, "statement", 0).Some? {
      var body := ChildAt(n, "statement", 0).value;
      LoopForestDepths(BodyEntry(body), d + 1);
    } else if NameIs(n, "blockStatements") && ChildArray(n, "blockStatement").Some? {
      BlockStatementsDepths(n, ChildArray(n, "blockStatement").value, d);
    } else {
      ForestAllDepths(n, Kids(n), d);
    }
  }

  lemma {:induction false} BlockStatementsDepths(parent: Cst, stmts: seq<Cst>, d: nat)
    requires Below(stmts, parent)
    ensures DepthsFrom(BlockStatementsForest(parent, stmts, d), d)
    decreases parent, 0, |stmts|
  {
    if stmts != [] {
      var last := stmts[|stmts| - 1];
      BlockStatementsDepths(parent, stmts[..|stmts| - 1], d);
      match ChildAt(last, "statement", 0) {
        case Some(s) =>
          LoopForestDepths(s, d);
          DepthsFromAppend(BlockStatementsForest(parent, stmts[..|stmts| - 1], d), LoopForest(s, d), d);
        case None =>
          DepthsFromAppend(BlockStatementsForest(parent, stmts[..|stmts| - 1], d), [], d);
      }
    }
  }

  lemma {:induction false} ForestAllDepths(parent: Cst, s: seq<Cst>, d: nat)
    requires Below(s, parent)
    ensures DepthsFrom(ForestAll(parent, s, d), d)
    decreases parent, 0, |s|
  {
    if s != [] {
      ForestAllDepths(parent, s[..|s| - 1], d);
      LoopForestDepths(s[|s| - 1], d);
      DepthsFromAppend(ForestAll(parent, s[..|s| - 1], d), LoopForest(s[|s| - 1], d), d);
    }
  }

  /** `buildLoopTree(node, currentLoops, depth)`: pushes the loops found
      under `node` onto `currentLoops`. */
  method BuildLoopTree(node: Cst, currentLoops: seq<LoopNode>, depth: nat) returns (r: seq<LoopNode>)
    ensures r == currentLoops + LoopForest(node, depth)
    decreases node, 1
  {
    var kind := LoopKind(node);
    var loopBody := ChildAt(node, "statement", 0);
    if kind.Some? && loopBody.Some? {
      var body := loopBody.value;
      var nested: seq<LoopNode>;
      if NameIs(body, "block") && ChildAt(body, "blockStatements", 0).Some? {
        nested := BuildLoopTree(ChildAt(body, "blockStatements", 0).value, [], depth + 1);
      } else {
        nested := BuildLoopTree(body, [], depth + 1);
      }
      assert nested == LoopForest(BodyEntry(body), depth + 1);
      r := currentLoops + [LoopNode(kind.value, nested, depth)];
    } else if NameIs(node, "blockStatements") && ChildArray(node, "blockStatement").Some? {
      r := BuildBlockStatements(node, ChildArray(node, "blockStatement").value, currentLoops, depth);
    } else {
      r := BuildAll(node, Kids(node), currentLoops, depth);
    }
  }

  /** The `blockStatements` case: the `statement` of each `blockStatement`. */
  method BuildBlockStatements(parent: Cst, stmts: seq<Cst>, currentLoops: seq<LoopNode>, depth: nat)
    returns (r: seq<LoopNode>)
    requires Below(stmts, parent)
    ensures r == currentLoops + BlockStatementsForest(parent, stmts, depth)
    decreases parent, 0
  {
    r := currentLoops;
    var i := 0;
    while i < |stmts|
      invariant 0 <= i <= |stmts|
      invariant r == currentLoops + BlockStatementsForest(parent, stmts[..i], depth)
    {
      ghost var before := r;
      var inner := ChildAt(stmts[i], "statement", 0);
      if inner.Some? {
        r := BuildLoopTree(inner.value, r, depth);
      }
      BlockStatementsStep(parent, stmts, i, depth, currentLoops, before, r);
      i := i + 1;
    }
    assert stmts[..|stmts|] == stmts;
  }

  lemma BlockStatementsStep(parent: Cst, stmts: seq<Cst>, i: nat, depth: nat, c: seq<LoopNode>,
                            before: seq<LoopNode>, after: seq<LoopNode>)
    requires Below(stmts, parent) && i < |stmts|
    requires before == c + BlockStatementsForest(parent, stmts[..i], depth)
    requires after == before + match ChildAt(stmts[i], "statement", 0)
                               case Some(x) => LoopForest(x, depth)
                               case None => []
    ensures after == c + BlockStatementsForest(parent, stmts[..i + 1], depth)
  {
    var pre := stmts[..i + 1];
    assert pre[..|pre| - 1] == stmts[..i];
    assert pre[|pre| - 1] == stmts[i];
    var more := after[|before|..];
    assert BlockStatementsForest(parent, pre, depth) == BlockStatementsForest(parent, stmts[..i], depth) + more;
  }

  lemma ForestAllStep(parent: Cst, s: seq<Cst>, i: nat, depth: nat, c: seq<LoopNode>,
                      before: seq<LoopNode>, after: seq<LoopNode>)
    requires Below(s, parent) && i < |s|
    requires before == c + ForestAll(parent, s[..i], depth)
    requires after == before + LoopForest(s[i], depth)
    ensures after == c + ForestAll(parent, s[..i + 1], depth)
  {
    assert s[..i + 1][..i] == s[..i];
  }

  /** Every other node: each child array, in order. */
  method BuildAll(parent: Cst, s: seq<Cst>, currentLoops: seq<LoopNode>, depth: nat) returns (r: seq<LoopNode>)
    requires Below(s, parent)
    ensures r == currentLoops + ForestAll(parent, s, depth)
    decreases parent, 0
  {
    r := currentLoops;
    var i := 0;
    while i < |s|
      invariant 0 <= i <= |s|
      invariant r == currentLoops + ForestAll(parent, s[..i], depth)
    {
      ghost var before := r;
      r := BuildLoopTree(s[i], r, depth);
      ForestAllStep(parent, s, i, depth, currentLoops, before, r);
      i := i + 1;
    }
    assert s[..|s|] == s;
  }

  /** `calculateMaxDepth`: the largest, over the roots, of one plus the
      depth of the loops nested in them; 0 for an empty forest. */
  function CalculateMaxDepth(forest: seq<LoopNode>): nat
  {
    if forest == [] then 0
    else
      var loop := forest[|forest| - 1];
      Max(CalculateMaxDepth(forest[..|forest| - 1]), 1 + CalculateMaxDepth(loop.nested))
  }

  /** `countTotalLoops`: the roots plus the loops nested in each of them. */
  function CountTotalLoops(forest: seq<LoopNode>): nat
    decreases forest, 1
  {
    |forest| + NestedLoopCounts(forest)
  }

  function NestedLoopCounts(forest: seq<LoopNode>): nat
    decreases forest, 0
  {
    if forest == [] then 0 else CountTotalLoops(forest[0].nested) + NestedLoopCounts(forest[1..])
  }

  /** The loops of a forest in pre-order: a reference enumeration of its
      nodes. */
  function Flatten(forest: seq<LoopNode>): seq<LoopNode>
  {
    if forest == [] then [] else [forest[0]] + Flatten(forest[0].nested) + Flatten(forest[1..])
  }

  lemma {:induction false} FlattenAppend(a: seq<LoopNode>, b: seq<LoopNode>)
    ensures Flatten(a + b) == Flatten(a) + Flatten(b)
    decreases |a|
  {
    if a == [] {
      assert a + b == b;
    } else {
      assert (a + b)[0] == a[0] && (a + b)[1..] == a[1..] + b;
      FlattenAppend(a[1..], b);
    }
  }

  /** `countTotalLoops` counts every loop of the forest exactly once. */
  lemma {:induction false} CountIsNodeCount(forest: seq<LoopNode>)
    ensures CountTotalLoops(forest) == |Flatten(forest)|
    decreases forest, 1
  {
    NestedCountsAreNodeCounts(forest);
  }

  lemma {:induction false} NestedCountsAreNodeCounts(forest: seq<LoopNode>)
    ensures |forest| + NestedLoopCounts(forest) == |Flatten(forest)|
    decreases forest, 0
  {
    if forest != [] {
      CountIsNodeCount(forest[0].nested);
      NestedCountsAreNodeCounts(forest[1..]);
    }
  }

  /** The deepest nesting never exceeds the number of loops. */
  lemma {:induction false} MaxDepthAtMostCount(forest: seq<LoopNode>)
    ensures CalculateMaxDepth(forest) <= CountTotalLoops(forest)
  {
    CountIsNodeCount(forest);
    MaxDepthAtMostSize(forest);
  }

  lemma {:induction false} MaxDepthAtMostSize(forest: seq<LoopNode>)
    ensures CalculateMaxDepth(forest) <= |Flatten(forest)|
  {
    if forest != [] {
      var init := forest[..|forest| - 1];
      var loop := forest[|forest| - 1];
      assert forest == init + [loop];
      FlattenAppend(init, [loop]);
      assert Flatten([loop]) == [loop] + Flatten(loop.nested) by {
        assert [loop][1..] == [];
      }
      MaxDepthAtMostSize(init);
      MaxDepthAtMostSize(loop.nested);
    }
  }

  /** On a forest whose depths start at `d`, `calculateMaxDepth` is one more
      than the deepest recorded depth, counted from `d`: every loop lies above
      it and some loop reaches it. */
  lemma MaxDepthMatchesDepths(forest: seq<LoopNode>, d: nat)
    requires DepthsFrom(forest, d)
    ensures forall l :: l in Flatten(forest) ==> l.depth < d + CalculateMaxDepth(forest)
    ensures forest != [] ==> exists l :: l in Flatten(forest) && l.depth == d + CalculateMaxDepth(forest) - 1
  {
    MaxDepthBounds(forest, d);
    if forest != [] {
      MaxDepthReached(forest, d);
    }
  }

  /** The last tree of a forest, split off. */
  lemma FlattenLast(forest: seq<LoopNode>)
    requires forest != []
    ensures Flatten(forest) == Flatten(forest[..|forest| - 1]) + ([forest[|forest| - 1]] + Flatten(forest[|forest| - 1].nested))
  {
    var init, loop := forest[..|forest| - 1], forest[|forest| - 1];
    assert forest == init + [loop];
    FlattenAppend(init, [loop]);
    assert [loop][1..] == [];
  }

  /** No loop is deeper than the forest's depth allows. */
  lemma {:induction false} MaxDepthBounds(forest: seq<LoopNode>, d: nat)
    requires DepthsFrom(forest, d)
    ensures forall l :: l in Flatten(forest) ==> l.depth < d + CalculateMaxDepth(forest)
  {
    if forest != [] {
      var init, loop := forest[..|forest| - 1], forest[|forest| - 1];
      assert forall l :: l in init ==> l in forest;
      assert loop in forest;
      FlattenLast(forest);
      MaxDepthBounds(init, d);
      MaxDepthBounds(loop.nested, d + 1);
    }
  }

  /** Some loop is exactly as deep as the forest's depth says. */
  lemma {:induction false} MaxDepthReached(forest: seq<LoopNode>, d: nat)
    requires DepthsFrom(forest, d) && forest != []
    ensures exists l :: l in Flatten(forest) && l.depth == d + CalculateMaxDepth(forest) - 1
  {
    var init, loop := forest[..|forest| - 1], forest[|forest| - 1];
    assert forall l :: l in init ==> l in forest;
    assert loop in forest;
    FlattenLast(forest);
    var m := CalculateMaxDepth(forest);
    if init != [] && CalculateMaxDepth(init) >= 1 + CalculateMaxDepth(loop.nested) {
      MaxDepthReached(init, d);
      var l :| l in Flatten(init) && l.depth == d + CalculateMaxDepth(init) - 1;
      assert l in Flatten(forest);
    } else if loop.nested == [] {
      assert CalculateMaxDepth(loop.nested) == 0;
      assert loop in Flatten(forest);
    } else {
      MaxDepthReached(loop.nested, d + 1);
      var l :| l in Flatten(loop.nested) && l.depth == d + 1 + CalculateMaxDepth(loop.nested) - 1;
      assert l in Flatten(forest);
    }
  }


  /** The metrics the parser attaches to a method body whose loop forest
      `buildLoopTree(body, [], 0)` is non-empty: the nesting depth is at
      least one, at most the loop count, and one more than the deepest
      recorded depth. */
  lemma LoopMetrics(body: Cst)
    requires LoopForest(body, 0) != []
    ensures var f := LoopForest(body, 0);
            1 <= CalculateMaxDepth(f) <= CountTotalLoops(f)
            && (forall l :: l in Flatten(f) ==> l.depth < CalculateMaxDepth(f))
            && (exists l :: l in Flatten(f) && l.depth + 1 == CalculateMaxDepth(f))
  {
    var f := LoopForest(body, 0);
    LoopForestDepths(body, 0);
    MaxDepthMatchesDepths(f, 0);
    MaxDepthAtMostCount(f);
    assert f[0] in Flatten(f);
  }
}
