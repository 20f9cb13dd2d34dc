/** What the optimization rules see and produce: a method of the summarised
    Java AST, the context naming where it sits, and a finding. */
module OptimizationTypes {
  import opened Wrappers
  import opened Text

  datatype Severity = Low | Medium | High

  function Rank(s: Severity): nat
  {
    match s
    case Low => 0
    case Medium => 1
    case High => 2
  }

  /** A method: its name, its number of parameters and the kinds of its
      loops (`"for"`, `"while"`, ...); a `loops` that is missing or not an
      array is `None`. */
  datatype MethodAst = MethodAst(name: Option<string>, paramCount: nat, loops: Option<seq<string>>)

  /** The number of loops, 0 when there is no loop array. */
  function LoopCount(node: MethodAst): nat
  {
    if node.loops.Some? then |node.loops.value| else 0
  }

  datatype RuleContext = RuleContext(filePath: string, className: string, methodName: string)

  /** A finding's message, kept as the values it is built from; each rule
      renders its own text after the method head (`Headed`). */
  datatype Message =
    | LoopMessage(ctx: RuleContext, loops: nat)
    | AlgorithmMessage(ctx: RuleContext, loops: nat)
    | MemoizationMessage(ctx: RuleContext, params: nat, loops: nat)

  datatype AgentResult = AgentResult(message: Message, severity: Severity, location: string)

  /** `Method '<class>.<method>`, the head of every rule's message. */
  function MethodHead(ctx: RuleContext): string
  {
    "Method '" + ctx.className + "." + ctx.methodName
  }

  /** `Method '<class>.<method>'`, the head of the loop rules' messages. */
  function MethodLabel(ctx: RuleContext): string
  {
    MethodHead(ctx) + "'"
  }

  /** A rule's message: the method head, then the rule's own text. */
  function Headed(ctx: RuleContext, tail: string): (r: string)
    ensures StartsWith(r, MethodHead(ctx)) && r[|MethodHead(ctx)|..] == tail
  {
    StartsWithAppend(MethodHead(ctx), tail);
    MethodHead(ctx) + tail
  }
}
