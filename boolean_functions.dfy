/**
 * The four Boolean functions f: {0,1} -> {0,1} and the classical test that
 * needs two evaluations of f to call it constant or balanced.
 */
module BooleanFunctions {
  import opened Classify

  datatype BooleanFunction = ConstantZero | ConstantOne | Identity | Not

  /** `f_constant_zero`, `f_constant_one`, `f_identity` and `f_not` (`1 - x`). */
  function Apply(f: BooleanFunction, x: int): int {
    match f
    case ConstantZero => 0
    case ConstantOne => 1
    case Identity => x
    case Not => 1 - x
  }

  /** Every f_* maps a bit to a bit. */
  lemma ApplyIsBit(f: BooleanFunction, x: int)
    requires x == 0 || x == 1
    ensures Apply(f, x) == 0 || Apply(f, x) == 1
  {
  }

  /** `classify_classically`: evaluate f at 0 and at 1 and compare. */
  function ClassifyClassically(f: int -> int): Label {
    var values := [f(0), f(1)];
    if values[0] == values[1] then Constant else Balanced
  }

  /** The verdict depends on f(0) and f(1) only: no other input is queried. */
  lemma ClassifyClassicallyQueriesTwoInputs(f: int -> int, g: int -> int)
    requires f(0) == g(0) && f(1) == g(1)
    ensures ClassifyClassically(f) == ClassifyClassically(g)
  {
  }

  /** The two constant functions are classified constant, identity and not balanced. */
  lemma ClassifyNamedFunctions(f: BooleanFunction)
    ensures ClassifyClassically(x => Apply(f, x)) == Constant <==> f == ConstantZero || f == ConstantOne
  {
  }
}
