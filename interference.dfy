/**
 * The interference experiment: circuit A is H then H, circuit B is H, Z, H,
 * each measured into its one classical bit.  Without noise A always reads
 * "0" and B always reads "1"; the reported error rate is the frequency of
 * the other outcome.
 *
 * The ideal behaviour is modelled on the four single-qubit states the
 * circuits pass through, |0>, |1>, |+> and |->, which H, Z and X permute.
 */
module Interference {
  import opened Wrappers
  import opened Circuits
  import opened Counts
  import opened Metrics

  const Shots := 4096
  const NoiseLevels: seq<real> := [0.0, 0.05, 0.10, 0.20, 0.30, 0.50]

  /** The states reached from |0> by H, Z and X. */
  datatype Qubit = Zero | One | Plus | Minus

  /** One gate on qubit 0; gates the model does not cover leave the state alone. */
  function Step(g: Gate, s: Qubit): Qubit {
    match g
    case H(0) => (match s case Zero => Plus case Plus => Zero case One => Minus case Minus => One)
    case Z(0) => (match s case Plus => Minus case Minus => Plus case _ => s)
    case X(0) => (match s case Zero => One case One => Zero case _ => s)
    case _ => s
  }

  function Evolve(ops: seq<Gate>, s: Qubit): Qubit {
    if ops == [] then s else Evolve(ops[1..], Step(ops[0], s))
  }

  /** The outcome measuring a state gives on every shot, if it has one. */
  function Outcome(s: Qubit): (r: Option<string>)
    ensures r.Some? <==> s == Zero || s == One
  {
    match s
    case Zero => Some("0")
    case One => Some("1")
    case _ => None
  }

  function CircuitAGates(): seq<Gate> {
    [H(0), H(0), Measure(0, 0)]
  }

  function CircuitBGates(): seq<Gate> {
    [H(0), Z(0), H(0), Measure(0, 0)]
  }

  /** `circuit_A()` */
  method CircuitA() returns (qc: QuantumCircuit)
    ensures fresh(qc) && qc.numQubits == 1 && qc.numClbits == 1 && qc.Valid()
    ensures qc.ops == CircuitAGates()
  {
    qc := new QuantumCircuit(1, 1);
    qc.Append(H(0));
    qc.Append(H(0));
    qc.Append(Measure(0, 0));
  }

  /** `circuit_B()` */
  method CircuitB() returns (qc: QuantumCircuit)
    ensures fresh(qc) && qc.numQubits == 1 && qc.numClbits == 1 && qc.Valid()
    ensures qc.ops == CircuitBGates()
  {
    qc := new QuantumCircuit(1, 1);
    qc.Append(H(0));
    qc.Append(Z(0));
    qc.Append(H(0));
    qc.Append(Measure(0, 0));
  }

  /** B is A with a Z inserted between the two Hadamards, and nothing else differs. */
  lemma CircuitBIsAWithZ()
    ensures CircuitBGates() == CircuitAGates()[..1] + [Z(0)] + CircuitAGates()[1..]
    ensures Measurements(CircuitAGates()) == Measurements(CircuitBGates()) == [(0, 0)]
  {
  }

  /** H undoes itself, and H Z H acts as X: the two facts the experiment relies on. */
  lemma {:induction false} Interference(s: Qubit)
    ensures Evolve([H(0), H(0)], s) == s
    ensures Evolve([H(0), Z(0), H(0)], s) == Step(X(0), s)
  {
    assert [H(0), H(0)][1..][1..] == [];
    assert [H(0), Z(0), H(0)][1..][1..][1..] == [];
  }

  /** Without noise, A reads "0" and B reads "1" on every shot. */
  lemma IdealOutcomes()
    ensures Outcome(Evolve(CircuitAGates(), Zero)) == Some("0")
    ensures Outcome(Evolve(CircuitBGates(), Zero)) == Some("1")
  {
    assert CircuitAGates()[1..][1..][1..] == [];
    assert CircuitBGates()[1..][1..][1..][1..] == [];
  }

  /** The outcome whose frequency is reported as A's error rate: P(1). */
  const ErrorKeyA := "1"
  /** The outcome whose frequency is reported as B's error rate: P(0). */
  const ErrorKeyB := "0"

  /** The error keys are exactly the outcomes the ideal circuits never give. */
  lemma ErrorKeysAreTheOtherOutcome()
    ensures Outcome(Evolve(CircuitAGates(), Zero)) == Some("0") && ErrorKeyA != "0" && ErrorKeyA in {"0", "1"}
    ensures Outcome(Evolve(CircuitBGates(), Zero)) == Some("1") && ErrorKeyB != "1" && ErrorKeyB in {"0", "1"}
  {
    IdealOutcomes();
  }

  /** `(prob(counts_A, "1"), prob(counts_B, "0"))`, the two error rates of one run. */
  function ErrorRates(countsA: Counts, countsB: Counts): (real, real) {
    (Prob(countsA, ErrorKeyA, Shots), Prob(countsB, ErrorKeyB, Shots))
  }

  /** Both error rates are frequencies when each run used `shots` shots. */
  lemma ErrorRatesBounds(countsA: Counts, countsB: Counts)
    requires Total(countsA) == Shots && Total(countsB) == Shots
    ensures 0.0 <= ErrorRates(countsA, countsB).0 <= 1.0
    ensures 0.0 <= ErrorRates(countsA, countsB).1 <= 1.0
  {
    ProbBounds(countsA, ErrorKeyA, Shots);
    ProbBounds(countsB, ErrorKeyB, Shots);
  }

  /**
   * When every shot lands on the ideal outcome the error rate is 0, and it
   * is 1 exactly when every shot lands on the error key.
   */
  lemma ErrorRateExtremes(c: Counts, ideal: string, error: string)
    requires Distinct(c) && Total(c) == Shots && ideal != error
    ensures Get(c, ideal) == Shots ==> Prob(c, error, Shots) == 0.0
    ensures Prob(c, error, Shots) == 1.0 <==> Get(c, error) == Shots
  {
    GetPairBelowTotal(c, ideal, error);
  }
}
