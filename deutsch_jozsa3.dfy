/**
 * Deutsch-Jozsa with three input qubits q0, q1, q2 and the ancilla q3,
 * with the six fixed oracles of the n = 3 experiment.
 */
module DeutschJozsa3 {
  import opened Circuits
  import opened Reversible
  import opened Counts
  import opened Classify

  datatype Oracle = ConstantZero | ConstantOne | BalancedX0 | BalancedX1 | BalancedX2 | BalancedParity

  /** The function each oracle is named after. */
  function Value(o: Oracle, x0: bool, x1: bool, x2: bool): bool {
    match o
    case ConstantZero => false
    case ConstantOne => true
    case BalancedX0 => x0
    case BalancedX1 => x1
    case BalancedX2 => x2
    case BalancedParity => (x0 != x1) != x2
  }

  /** Its truth table, input (x0, x1, x2) at index 4*x0 + 2*x1 + x2. */
  function Table(o: Oracle): (t: seq<bool>)
    ensures |t| == Pow2(3)
  {
    seq(8, i requires 0 <= i < 8 => Value(o, i >= 4, i % 4 >= 2, i % 2 == 1))
  }

  function OracleGates(o: Oracle): seq<Gate> {
    match o
    case ConstantZero => []
    case ConstantOne => [X(3)]
    case BalancedX0 => [CX(0, 3)]
    case BalancedX1 => [CX(1, 3)]
    case BalancedX2 => [CX(2, 3)]
    case BalancedParity => [CX(0, 3), CX(1, 3), CX(2, 3)]
  }

  /** `oracle_constant_zero` ... `oracle_balanced_parity`, each on a fresh 4-qubit circuit. */
  method BuildOracle(o: Oracle) returns (qc: QuantumCircuit)
    ensures fresh(qc) && qc.numQubits == 4 && qc.numClbits == 0 && qc.Valid()
    ensures qc.ops == OracleGates(o)
  {
    qc := new QuantumCircuit(4, 0);
    match o
    case ConstantZero =>
    case ConstantOne =>
      qc.Append(X(3));
    case BalancedX0 =>
      qc.Append(CX(0, 3));
    case BalancedX1 =>
      qc.Append(CX(1, 3));
    case BalancedX2 =>
      qc.Append(CX(2, 3));
    case BalancedParity =>
      qc.Append(CX(0, 3));
      qc.Append(CX(1, 3));
      qc.Append(CX(2, 3));
  }

  /** On |a, b, c, y> each oracle flips y by its function and leaves q0..q2 alone. */
  lemma OracleRuns(o: Oracle, a: bool, b: bool, c: bool, y: bool)
    ensures ClassicalOn(OracleGates(o), 4)
    ensures Run(OracleGates(o), [a, b, c, y]) == [a, b, c, y != Value(o, a, b, c)]
  {
    var s := [a, b, c, y];
    match o
    case ConstantZero =>
    case ConstantOne =>
      RunSingle(X(3), s);
    case BalancedX0 =>
      RunSingle(CX(0, 3), s);
    case BalancedX1 =>
      RunSingle(CX(1, 3), s);
    case BalancedX2 =>
      RunSingle(CX(2, 3), s);
    case BalancedParity =>
      var s2 := [a, b, c, (y != a) != b];
      RunTwo(CX(0, 3), CX(1, 3), s);
      RunSingle(CX(2, 3), s2);
      RunThen([CX(0, 3), CX(1, 3)], [CX(2, 3)], s, s2, [a, b, c, y != Value(o, a, b, c)]);
      assert [CX(0, 3), CX(1, 3)] + [CX(2, 3)] == OracleGates(o);
  }

  lemma OracleRunsOn(o: Oracle, x: seq<bool>, y: bool)
    requires |x| == 3
    ensures ClassicalOn(OracleGates(o), 4)
    ensures Run(OracleGates(o), x + [y]) == x + [y != Table(o)[Index(x)]]
  {
    IndexOfThree(x);
    assert x + [y] == [x[0], x[1], x[2], y];
    OracleRuns(o, x[0], x[1], x[2], y);
  }

  /** `Uf |x, y> = |x, y XOR f(x)>` for each of the six oracles. */
  lemma OracleRealises(o: Oracle)
    ensures ClassicalOn(OracleGates(o), 4)
    ensures Realises(OracleGates(o), 3, Table(o))
  {
    OracleRuns(o, false, false, false, false);
    forall x: seq<bool>, y: bool | |x| == 3
      ensures Run(OracleGates(o), x + [y]) == x + [y != Table(o)[Index(x)]]
    {
      OracleRunsOn(o, x, y);
    }
  }

  /** The constant oracles are 1 on none or all eight inputs; every balanced one on exactly four. */
  lemma OracleKinds(o: Oracle)
    ensures o == ConstantZero ==> CountTrue(Table(o)) == 0
    ensures o == ConstantOne ==> CountTrue(Table(o)) == 8
    ensures o != ConstantZero && o != ConstantOne ==> CountTrue(Table(o)) == 4
    ensures IsConstantFunction(Table(o)) <==> o == ConstantZero || o == ConstantOne
    ensures IsBalancedFunction(Table(o)) <==> o != ConstantZero && o != ConstantOne
  {
    var t := Table(o);
    CountTrueOfEight(t);
    CountTrueOfFour(t[..4]);
    CountTrueOfFour(t[4..]);
  }

  /** X(3), H on q0..q3, the oracle, H on q0..q2, measure qi -> ci for i < 3. */
  function DeutschJozsaGates(oracle: seq<Gate>): seq<Gate> {
    [X(3), H(0), H(1), H(2), H(3)] + oracle + [H(0), H(1), H(2), Measure(0, 0), Measure(1, 1), Measure(2, 2)]
  }

  /** `deutsch_jozsa_n3(oracle_builder)` */
  method DeutschJozsa(o: Oracle) returns (qc: QuantumCircuit)
    ensures fresh(qc) && qc.numQubits == 4 && qc.numClbits == 3 && qc.Valid()
    ensures qc.ops == DeutschJozsaGates(OracleGates(o))
  {
    qc := new QuantumCircuit(4, 3);
    qc.AppendAll([X(3), H(0), H(1), H(2), H(3)]);
    var oracle := BuildOracle(o);
    qc.Compose(oracle);
    qc.AppendAll([H(0), H(1), H(2), Measure(0, 0), Measure(1, 1), Measure(2, 2)]);
  }

  /** Exactly q0..q2 are measured, into c0..c2; the ancilla q3 never is. */
  lemma DeutschJozsaMeasuresInputs(o: Oracle)
    ensures Measurements(DeutschJozsaGates(OracleGates(o))) == [(0, 0), (1, 1), (2, 2)]
  {
    var pre := [X(3), H(0), H(1), H(2), H(3)];
    var oracle := OracleGates(o);
    var post := [H(0), H(1), H(2), Measure(0, 0), Measure(1, 1), Measure(2, 2)];
    OracleRuns(o, false, false, false, false);
    ClassicalHasNoMeasure(oracle, 4);
    NoMeasureHasNoMeasurements(oracle);
    NoMeasureHasNoMeasurements(pre);
    MeasurementsAppend(pre + oracle, post);
    MeasurementsAppend(pre, oracle);
    assert post[3..] == [Measure(0, 0), Measure(1, 1), Measure(2, 2)];
    assert post[1..][1..][1..] == post[3..];
    assert post[3..][1..][1..][1..] == [];
  }

  const Shots: nat := 2048

  /** `classify(counts)`: CONSTANT iff "000" got every shot. */
  function ClassifyN3(c: Counts): Label {
    ClassifyExact(c, "000", Shots)
  }

  /** On counts of 2048 shots, CONSTANT iff no shot gave anything but "000". */
  lemma ClassifyN3Meaning(c: Counts)
    requires Distinct(c) && Total(c) == Shots
    ensures ClassifyN3(c) == Constant <==> forall i :: 0 <= i < |c| && c[i].key != "000" ==> c[i].count == 0
  {
    ClassifyExactMeaning(c, "000", Shots);
  }
}
