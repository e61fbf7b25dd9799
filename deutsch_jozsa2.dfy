/**
 * Deutsch-Jozsa with two input qubits q0, q1 and the ancilla q2: the
 * circuit shared by every two-input experiment, and the five fixed
 * oracles of the n = 2 demonstration.
 */
module DeutschJozsa2 {
  import opened Circuits
  import opened Reversible
  import opened Counts
  import opened Classify

  /** X(2), H on q0..q2, the oracle, H on q0 and q1, measure q0 -> c0 and q1 -> c1. */
  function DeutschJozsaGates(oracle: seq<Gate>): seq<Gate> {
    [X(2), H(0), H(1), H(2)] + oracle + [H(0), H(1), Measure(0, 0), Measure(1, 1)]
  }

  /** `deutsch_jozsa_circuit(oracle)`: a 3-qubit, 2-bit circuit around the oracle. */
  method DeutschJozsaCircuit(oracle: QuantumCircuit) returns (qc: QuantumCircuit)
    requires oracle.Valid() && oracle.numQubits <= 3 && oracle.numClbits <= 2
    ensures fresh(qc) && qc.numQubits == 3 && qc.numClbits == 2 && qc.Valid()
    ensures qc.ops == DeutschJozsaGates(oracle.ops)
  {
    qc := new QuantumCircuit(3, 2);
    qc.Append(X(2));
    qc.Append(H(0));
    qc.Append(H(1));
    qc.Append(H(2));
    assert qc.ops == [X(2), H(0), H(1), H(2)];
    qc.Compose(oracle);
    ghost var mid := qc.ops;
    assert mid == [X(2), H(0), H(1), H(2)] + oracle.ops;
    qc.Append(H(0));
    qc.Append(H(1));
    qc.Append(Measure(0, 0));
    qc.Append(Measure(1, 1));
    assert qc.ops == mid + [H(0), H(1), Measure(0, 0), Measure(1, 1)];
  }

  /** Only the input register is measured, q0 into c0 and q1 into c1; the ancilla never is. */
  lemma DeutschJozsaMeasuresInputs(oracle: seq<Gate>)
    requires NoMeasure(oracle)
    ensures Measurements(DeutschJozsaGates(oracle)) == [(0, 0), (1, 1)]
  {
    var pre := [X(2), H(0), H(1), H(2)];
    var post := [H(0), H(1), Measure(0, 0), Measure(1, 1)];
    NoMeasureHasNoMeasurements(oracle);
    NoMeasureHasNoMeasurements(pre);
    MeasurementsAppend(pre + oracle, post);
    MeasurementsAppend(pre, oracle);
    assert post[1..][1..] == [Measure(0, 0), Measure(1, 1)];
    assert post[1..][1..][1..][1..] == [];
  }

  /** The oracles of the n = 2 experiment, named after the function they compute. */
  datatype Oracle = ConstantZero | ConstantOne | BalancedX0 | BalancedX1 | BalancedX0XorX1

  /** The function the oracle is named after, as its comment states it. */
  function Value(o: Oracle, x0: bool, x1: bool): bool {
    match o
    case ConstantZero => false
    case ConstantOne => true
    case BalancedX0 => x0
    case BalancedX1 => x1
    case BalancedX0XorX1 => x0 != x1
  }

  /** The truth table of that function, input (x0, x1) at index 2*x0 + x1. */
  function Table(o: Oracle): (t: seq<bool>)
    ensures |t| == Pow2(2)
  {
    seq(4, i requires 0 <= i < 4 => Value(o, i >= 2, i % 2 == 1))
  }

  function OracleGates(o: Oracle): seq<Gate> {
    match o
    case ConstantZero => []
    case ConstantOne => [X(2)]
    case BalancedX0 => [CX(0, 2)]
    case BalancedX1 => [CX(1, 2)]
    case BalancedX0XorX1 => [CX(0, 2), CX(1, 2)]
  }

  /** `oracle_constant_zero` ... `oracle_balanced_x0_xor_x1` */
  method BuildOracle(o: Oracle) returns (qc: QuantumCircuit)
    ensures fresh(qc) && qc.numQubits == 3 && qc.numClbits == 0 && qc.Valid()
    ensures qc.ops == OracleGates(o)
  {
    qc := new QuantumCircuit(3, 0);
    match o
    case ConstantZero =>
    case ConstantOne =>
      qc.Append(X(2));
    case BalancedX0 =>
      qc.Append(CX(0, 2));
    case BalancedX1 =>
      qc.Append(CX(1, 2));
    case BalancedX0XorX1 =>
      qc.Append(CX(0, 2));
      qc.Append(CX(1, 2));
  }

  /** On |a, b, y> each oracle flips y by its function and leaves the inputs alone. */
  lemma OracleRuns(o: Oracle, a: bool, b: bool, y: bool)
    ensures ClassicalOn(OracleGates(o), 3)
    ensures Run(OracleGates(o), [a, b, y]) == [a, b, y != Value(o, a, b)]
  {
    var s := [a, b, y];
    match o
    case ConstantZero =>
    case ConstantOne =>
      RunSingle(X(2), s);
    case BalancedX0 =>
      RunSingle(CX(0, 2), s);
    case BalancedX1 =>
      RunSingle(CX(1, 2), s);
    case BalancedX0XorX1 =>
      RunTwo(CX(0, 2), CX(1, 2), s);
  }

  lemma OracleRunsOn(o: Oracle, x: seq<bool>, y: bool)
    requires |x| == 2
    ensures ClassicalOn(OracleGates(o), 3)
    ensures Run(OracleGates(o), x + [y]) == x + [y != Table(o)[Index(x)]]
  {
    IndexOfTwo(x);
    assert x + [y] == [x[0], x[1], y];
    OracleRuns(o, x[0], x[1], y);
  }

  /** `Uf |x, y> = |x, y XOR f(x)>` for each of the five oracles. */
  lemma OracleRealises(o: Oracle)
    ensures ClassicalOn(OracleGates(o), 3)
    ensures Realises(OracleGates(o), 2, Table(o))
  {
    OracleRuns(o, false, false, false);
    forall x: seq<bool>, y: bool | |x| == 2
      ensures Run(OracleGates(o), x + [y]) == x + [y != Table(o)[Index(x)]]
    {
      OracleRunsOn(o, x, y);
    }
  }

  /** The constant oracles are 1 on none or all four inputs; every balanced one on exactly two. */
  lemma OracleKinds(o: Oracle)
    ensures o == ConstantZero ==> CountTrue(Table(o)) == 0
    ensures o == ConstantOne ==> CountTrue(Table(o)) == 4
    ensures o != ConstantZero && o != ConstantOne ==> CountTrue(Table(o)) == 2
    ensures IsConstantFunction(Table(o)) <==> o == ConstantZero || o == ConstantOne
    ensures IsBalancedFunction(Table(o)) <==> o != ConstantZero && o != ConstantOne
  {
    CountTrueOfFour(Table(o));
  }

  /** `deutsch_jozsa(oracle_builder)` for one of the fixed oracles. */
  method DeutschJozsa(o: Oracle) returns (qc: QuantumCircuit)
    ensures fresh(qc) && qc.numQubits == 3 && qc.numClbits == 2 && qc.Valid()
    ensures qc.ops == DeutschJozsaGates(OracleGates(o))
  {
    var oracle := BuildOracle(o);
    qc := DeutschJozsaCircuit(oracle);
  }

  /** The shot count of the n = 2 demonstration. */
  const Shots: nat := 2048

  /** `classify(counts)`: CONSTANT iff "00" got every shot. */
  function ClassifyN2(c: Counts): Label {
    ClassifyExact(c, "00", Shots)
  }

  /** On counts of 2048 shots, CONSTANT iff no shot gave anything but "00". */
  lemma ClassifyN2Meaning(c: Counts)
    requires Distinct(c) && Total(c) == Shots
    ensures ClassifyN2(c) == Constant <==> forall i :: 0 <= i < |c| && c[i].key != "00" ==> c[i].count == 0
  {
    ClassifyExactMeaning(c, "00", Shots);
  }
}
