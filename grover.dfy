/**
 * Two-qubit Grover search for |11>: H on both qubits, k rounds of the
 * 12-gate oracle-plus-diffusion step, then q0 -> c0 and q1 -> c1; and the
 * agent that raises k until the success rate drops.
 */
module Grover {
  import opened Wrappers
  import opened Circuits
  import opened Counts
  import opened Noise
  import opened NoiseInstances
  import opened Metrics

  const Shots := 2048
  const NoiseLevels: seq<real> := [0.0, 0.05, 0.1, 0.2]
  const Iterations: seq<nat> := [1, 2, 3, 4]
  const StoppingNoiseP: real := 0.1
  const MaxIters := 6

  /** `grover_step(qc)`: the CZ oracle marking |11>, then the diffusion operator. */
  const Step: seq<Gate> := [CZ(0, 1), H(0), H(1), X(0), X(1), H(1), CX(0, 1), H(1), X(0), X(1), H(0), H(1)]

  const Prepare: seq<Gate> := [H(0), H(1)]
  const Measures: seq<Gate> := [Measure(0, 0), Measure(1, 1)]

  /** `grover_circuit(k)` / `build_circuit(k)` */
  function GroverGates(k: nat): seq<Gate> {
    Prepare + Repeat(Step, k) + Measures
  }

  lemma GroverBlocksFit()
    ensures AllFit(Step, 2, 2) && AllFit(Prepare, 2, 2) && AllFit(Measures, 2, 2)
  {
  }

  /** `grover_step(qc)` */
  method GroverStep(qc: QuantumCircuit)
    requires qc.Valid() && qc.numQubits == 2
    modifies qc
    ensures qc.ops == old(qc.ops) + Step && qc.Valid()
  {
    qc.Append(CZ(0, 1));
    qc.AppendAll([H(0), H(1)]);
    qc.AppendAll([X(0), X(1)]);
    qc.Append(H(1));
    qc.Append(CX(0, 1));
    qc.Append(H(1));
    qc.AppendAll([X(0), X(1)]);
    qc.AppendAll([H(0), H(1)]);
  }

  /** `build_circuit(k)`, and `grover_circuit(k)`, which writes the same step inline. */
  method BuildCircuit(k: nat) returns (qc: QuantumCircuit)
    ensures fresh(qc) && qc.numQubits == 2 && qc.numClbits == 2 && qc.Valid()
    ensures qc.ops == GroverGates(k)
  {
    qc := new QuantumCircuit(2, 2);
    GroverBlocksFit();
    qc.AppendAll(Prepare);
    for i := 0 to k
      invariant qc.numQubits == 2 && qc.numClbits == 2 && qc.Valid()
      invariant qc.ops == Prepare + Repeat(Step, i)
    {
      GroverStep(qc);
    }
    qc.AppendAll(Measures);
  }

  /**
   * The circuit for k rounds has 4 + 12k gates: the two H gates, then round
   * i occupying positions 2 + 12i .. 13 + 12i, each a copy of the step,
   * then the two measurements.
   */
  lemma GroverLayout(k: nat, i: nat, j: nat)
    ensures |GroverGates(k)| == 4 + 12 * k
    ensures GroverGates(k)[..2] == Prepare && GroverGates(k)[2 + 12 * k..] == Measures
    ensures i < k && j < 12 ==> GroverGates(k)[2 + 12 * i + j] == Step[j]
  {
    if i < k && j < 12 {
      RepeatAt(Step, k, i, j);
    }
  }

  /** One oracle CZ and one CX per round. */
  lemma GroverGateCount(k: nat, g: Gate)
    requires g == CZ(0, 1) || g == CX(0, 1)
    ensures Count(GroverGates(k), g) == k
  {
    var r := Repeat(Step, k);
    CountAppend(Prepare + r, Measures, g);
    CountAppend(Prepare, r, g);
    CountRepeat(Step, k, g);
    StepCount(g);
    CountPair(H(0), H(1), g);
    CountPair(Measure(0, 0), Measure(1, 1), g);
  }

  /** Only q0 -> c0 and q1 -> c1 are measured, at the end. */
  lemma GroverMeasurements(k: nat)
    ensures Measurements(GroverGates(k)) == [(0, 0), (1, 1)]
  {
    var r := Repeat(Step, k);
    assert NoMeasure(r) by {
      forall n | 0 <= n < |r| ensures !r[n].Measure? {
        RepeatAt(Step, k, n / 12, n % 12);
      }
    }
    NoMeasureHasNoMeasurements(r);
    NoMeasureHasNoMeasurements(Prepare);
    MeasurementsAppend(Prepare + r, Measures);
    MeasurementsAppend(Prepare, r);
    assert Measures[1..][1..] == [];
  }

  lemma StepCount(g: Gate)
    requires g == CZ(0, 1) || g == CX(0, 1)
    ensures Count(Step, g) == 1
  {
    if g == CZ(0, 1) {
      StepCountCZ();
    } else {
      StepCountCX();
    }
  }

  lemma StepCountCZ()
    ensures Count(Step, CZ(0, 1)) == 1
  {
  }

  lemma StepCountCX()
    ensures Count(Step, CX(0, 1)) == 1
  {
  }

  /** `success = counts.get("11", 0) / shots` after k rounds; `run` stands for the simulator. */
  function SuccessAt(run: seq<Gate> -> Counts, k: nat): (r: real)
    ensures 0.0 <= r
  {
    GroverSuccess(run(GroverGates(k)), Shots)
  }

  /**
   * The (p, k) sweep: `table[a][b]` is the success rate for noise level
   * `levels[a]` and `iterations[b]`, so every pair is evaluated exactly once.
   */
  method NoiseSweep(levels: seq<real>, iterations: seq<nat>, run: (seq<Gate>, NoiseConfig) -> Counts)
    returns (table: seq<seq<real>>)
    ensures |table| == |levels|
    ensures forall a :: 0 <= a < |levels| ==> |table[a]| == |iterations|
    ensures forall a, b :: 0 <= a < |levels| && 0 <= b < |iterations| ==>
      table[a][b] == GroverSuccess(run(GroverGates(iterations[b]), GroverNoise(levels[a])), Shots)
  {
    table := [];
    for a := 0 to |levels|
      invariant |table| == a
      invariant forall a' :: 0 <= a' < a ==> |table[a']| == |iterations|
      invariant forall a', b :: 0 <= a' < a && 0 <= b < |iterations| ==>
        table[a'][b] == GroverSuccess(run(GroverGates(iterations[b]), GroverNoise(levels[a'])), Shots)
    {
      var nm := GroverNoise(levels[a]);
      var row: seq<real> := [];
      for b := 0 to |iterations|
        invariant |row| == b
        invariant forall b' :: 0 <= b' < b ==> row[b'] == GroverSuccess(run(GroverGates(iterations[b']), nm), Shots)
      {
        var qc := BuildCircuit(iterations[b]);
        var success := GroverSuccess(run(qc.ops, nm), Shots);
        row := row + [success];
      }
      table := table + [row];
    }
  }

  /**
   * The stopping rule: try k = 1, 2, ..., maxIters; keep k while its success
   * rate is at least the best so far, stop at the first strict decrease.
   * `run` stands for the simulator with the stopping-rule noise model.
   */
  method StoppingRule(maxIters: nat, run: seq<Gate> -> Counts) returns (bestK: Option<nat>, bestP: real)
    ensures maxIters == 0 <==> bestK == None
    ensures maxIters == 0 ==> bestP == 0.0
    ensures bestK.Some? ==> 1 <= bestK.value <= maxIters && bestP == SuccessAt(run, bestK.value)
    ensures bestK.Some? ==> forall k :: 1 <= k < bestK.value ==> SuccessAt(run, k) <= SuccessAt(run, k + 1)
    ensures bestK.Some? ==> forall k :: 1 <= k <= bestK.value ==> SuccessAt(run, k) <= bestP
    ensures bestK.Some? && bestK.value < maxIters ==> SuccessAt(run, bestK.value + 1) < bestP
  {
    bestK := None;
    bestP := 0.0;
    var k := 1;
    while k <= maxIters
      invariant 1 <= k <= maxIters + 1
      invariant bestK == (if k == 1 then None else Some(k - 1))
      invariant k == 1 ==> bestP == 0.0
      invariant k > 1 ==> bestP == SuccessAt(run, k - 1)
      invariant forall j :: 1 <= j < k - 1 ==> SuccessAt(run, j) <= SuccessAt(run, j + 1)
      invariant forall j :: 1 <= j < k ==> SuccessAt(run, j) <= bestP
      decreases maxIters + 1 - k
    {
      var qc := BuildCircuit(k);
      var pSucc := GroverSuccess(run(qc.ops), Shots);
      if pSucc >= bestP {
        bestP := pSucc;
        bestK := Some(k);
      } else {
        return;
      }
      k := k + 1;
    }
  }
}
