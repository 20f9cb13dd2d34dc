// calculateCyclomaticComplexity: one plus the number of conditionals the
// parser recorded for a method.

module CyclomaticComplexity {
  import opened Json

  /** `method?.conditionals` when it is an array, the empty array otherwise. */
  function Conditionals(m: Value): seq<Value>
  {
    match Get(m, "conditionals")
    case Some(Arr(items)) => items
    case _ => []
  }

  /** `calculateCyclomaticComplexity(m)`. */
  function CyclomaticComplexityOf(m: Value): (r: nat)
    ensures r >= 1
  {
    var complexity := 1;
    complexity + |Conditionals(m)|
  }

  /** A method record whose `conditionals` is the array `cs`, added after
      its other properties. */
  function WithConditionals(fs: seq<Field>, cs: seq<Value>): Value
  {
    Obj(fs + [Field("conditionals", Arr(cs))])
  }

  /** Each recorded conditional counts once: the complexity is one more
      than the number of conditionals. */
  lemma ComplexityCountsConditionals(fs: seq<Field>, cs: seq<Value>)
    requires Lookup(fs, "conditionals").None?
    ensures CyclomaticComplexityOf(WithConditionals(fs, cs)) == 1 + |cs|
  {
    LookupSnocNew(fs, Field("conditionals", Arr(cs)));
  }

  /** Recording one more conditional raises the complexity by exactly one. */
  lemma OneMoreConditional(fs: seq<Field>, cs: seq<Value>, c: Value)
    requires Lookup(fs, "conditionals").None?
    ensures CyclomaticComplexityOf(WithConditionals(fs, cs + [c]))
            == CyclomaticComplexityOf(WithConditionals(fs, cs)) + 1
  {
    ComplexityCountsConditionals(fs, cs);
    ComplexityCountsConditionals(fs, cs + [c]);
  }

  /** A record without a `conditionals` array has the base complexity 1,
      whatever else it holds. */
  lemma NoConditionalsArray(m: Value)
    requires Get(m, "conditionals").None? || !Get(m, "conditionals").value.Arr?
    ensures CyclomaticComplexityOf(m) == 1
  {
  }
}
