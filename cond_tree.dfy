// The if/else tree that the parser stores in a method's `conditionalsTree`
// and that the CFG builder, the maintainability metrics and the rule
// engine read back.

module CondTree {
  /** One entry of a conditionals tree: an object with a `type` (empty when
      the object has none), an optional `thenBlock` array and an optional
      `elseBlock`. A missing `thenBlock` and an empty one are read alike by
      every consumer, so both are the empty sequence here. */
  datatype Cond = Cond(kind: string, thenBlock: seq<Cond>, elseBlock: Else)

  /** The parser stores an else branch in two shapes: a nested `if` as a
      single IfStatement OBJECT, any other branch as an ARRAY of entries. */
  datatype Else = NoElse | ElseIf(node: Cond) | ElseList(items: seq<Cond>)

  const IfStatementKind: string := "IfStatement"
  const StatementKind: string := "Statement"

  /** The `{ type: "Statement" }` leaf the parser emits for a simple statement. */
  function Statement(): Cond
  {
    Cond(StatementKind, [], NoElse)
  }
}
