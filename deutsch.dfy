/**
 * Deutsch's algorithm on two qubits: q0 is the input x, q1 the output y.
 * Each oracle is a fixed gate list; on basis states it maps |x, y> to
 * |x, y XOR f(x)> for the Boolean function of the same name.
 */
module Deutsch {
  import opened Circuits
  import opened Reversible
  import opened BooleanFunctions
  import opened Classify

  /** The truth table [f(0), f(1)] as bits. */
  function Table(f: BooleanFunction): (t: seq<bool>)
    ensures |t| == Pow2(1)
  {
    [Apply(f, 0) == 1, Apply(f, 1) == 1]
  }

  /** `oracle_constant_zero`, `oracle_constant_one`, `oracle_identity`, `oracle_not`. */
  function OracleGates(f: BooleanFunction): seq<Gate> {
    match f
    case ConstantZero => []
    case ConstantOne => [X(1)]
    case Identity => [CX(0, 1)]
    case Not => [CX(0, 1), X(1)]
  }

  method BuildOracle(f: BooleanFunction) returns (qc: QuantumCircuit)
    ensures fresh(qc) && qc.numQubits == 2 && qc.numClbits == 0 && qc.Valid()
    ensures qc.ops == OracleGates(f)
  {
    qc := new QuantumCircuit(2, 0);
    match f
    case ConstantZero =>
    case ConstantOne =>
      qc.Append(X(1));
    case Identity =>
      qc.Append(CX(0, 1));
    case Not =>
      qc.Append(CX(0, 1));
      qc.Append(X(1));
  }

  /** On |a, y> the oracle flips y by f(a) and leaves a alone. */
  lemma OracleRuns(f: BooleanFunction, a: bool, y: bool)
    ensures ClassicalOn(OracleGates(f), 2)
    ensures Run(OracleGates(f), [a, y]) == [a, y != Table(f)[if a then 1 else 0]]
  {
    var s := [a, y];
    match f
    case ConstantZero =>
    case ConstantOne =>
      RunSingle(X(1), s);
    case Identity =>
      RunSingle(CX(0, 1), s);
    case Not =>
      RunTwo(CX(0, 1), X(1), s);
  }

  lemma OracleRunsOn(f: BooleanFunction, x: seq<bool>, y: bool)
    requires |x| == 1
    ensures ClassicalOn(OracleGates(f), 2)
    ensures Run(OracleGates(f), x + [y]) == x + [y != Table(f)[Index(x)]]
  {
    IndexOfOne(x);
    assert x + [y] == [x[0], y];
    OracleRuns(f, x[0], y);
  }

  /** `Uf |x, y> = |x, y XOR f(x)>` for each of the four oracles. */
  lemma OracleRealises(f: BooleanFunction)
    ensures ClassicalOn(OracleGates(f), 2)
    ensures Realises(OracleGates(f), 1, Table(f))
  {
    OracleRuns(f, false, false);
    forall x: seq<bool>, y: bool | |x| == 1
      ensures Run(OracleGates(f), x + [y]) == x + [y != Table(f)[Index(x)]]
    {
      OracleRunsOn(f, x, y);
    }
  }

  /** The classical two-query test and the oracle's truth table agree on which functions are constant. */
  lemma ClassicalTestMatchesOracle(f: BooleanFunction)
    ensures ClassifyClassically(x => Apply(f, x)) == Constant <==> IsConstantFunction(Table(f))
    ensures ClassifyClassically(x => Apply(f, x)) == Balanced <==> IsBalancedFunction(Table(f))
  {
    var t := Table(f);
    assert t[1..][1..] == [];
    assert CountTrue(t[1..]) == (if t[1] then 1 else 0);
    assert CountTrue(t) == (if t[0] then 1 else 0) + (if t[1] then 1 else 0);
  }

  /** X(1), H(0), H(1), the oracle, H(0), measure q0 into c0. */
  function DeutschGates(oracle: seq<Gate>): seq<Gate> {
    [X(1), H(0), H(1)] + oracle + [H(0), Measure(0, 0)]
  }

  /** `deutsch_algorithm(oracle_builder)` */
  method DeutschAlgorithm(f: BooleanFunction) returns (qc: QuantumCircuit)
    ensures fresh(qc) && qc.numQubits == 2 && qc.numClbits == 1 && qc.Valid()
    ensures qc.ops == DeutschGates(OracleGates(f))
  {
    qc := new QuantumCircuit(2, 1);
    qc.Append(X(1));
    qc.Append(H(0));
    qc.Append(H(1));
    var oracle := BuildOracle(f);
    qc.Compose(oracle);
    qc.Append(H(0));
    qc.Append(Measure(0, 0));
  }

  /** Only the input qubit is measured, into the only classical bit. */
  lemma DeutschMeasuresInputOnly(f: BooleanFunction)
    ensures Measurements(DeutschGates(OracleGates(f))) == [(0, 0)]
  {
    var oracle := OracleGates(f);
    OracleRuns(f, false, false);
    ClassicalHasNoMeasure(oracle, 2);
    NoMeasureHasNoMeasurements(oracle);
    MeasurementsAppend([X(1), H(0), H(1)] + oracle, [H(0), Measure(0, 0)]);
    MeasurementsAppend([X(1), H(0), H(1)], oracle);
    assert [H(0), Measure(0, 0)][1..] == [Measure(0, 0)];
    assert [Measure(0, 0)][1..] == [];
    assert [X(1), H(0), H(1)][1..][1..][1..] == [];
  }
}
