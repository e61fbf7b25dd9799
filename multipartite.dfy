/**
 * The three-qubit GHZ and W circuits of the multipartite experiments and
 * the statevector handed to `initialize` for W.  Qiskit prints a count key
 * as q2 q1 q0, so statevector index i corresponds to the key that writes
 * i in binary with three digits.
 */
module Multipartite {
  import opened Circuits
  import opened Counts
  import opened Noise
  import opened NoiseInstances
  import opened Metrics

  const Shots := 4096
  const NoiseLevels: seq<real> := [0.0, 0.05, 0.10, 0.20, 0.30, 0.50]

  const MeasureAll: seq<Gate> := [Measure(0, 0), Measure(1, 1), Measure(2, 2)]

  /** `ghz_3()` */
  function GhzGates(): seq<Gate> {
    [H(0), CX(0, 1), CX(1, 2)] + MeasureAll
  }

  /** `w_3()`: the rotation construction, angles 2 * 0.61548 and 2 * 0.95532. */
  function W3Gates(): seq<Gate> {
    [RY(2.0 * 0.61548, 0), CX(0, 1), RY(2.0 * 0.95532, 1), CX(1, 2), CX(0, 1)] + MeasureAll
  }

  lemma ThreeQubitGatesFit()
    ensures AllFit([H(0), CX(0, 1), CX(1, 2)], 3, 3) && AllFit(MeasureAll, 3, 3)
    ensures AllFit([RY(2.0 * 0.61548, 0), CX(0, 1), RY(2.0 * 0.95532, 1), CX(1, 2), CX(0, 1)], 3, 3)
  {
  }

  method Ghz3() returns (qc: QuantumCircuit)
    ensures fresh(qc) && qc.numQubits == 3 && qc.numClbits == 3 && qc.Valid()
    ensures qc.ops == GhzGates()
  {
    qc := new QuantumCircuit(3, 3);
    ThreeQubitGatesFit();
    qc.AppendAll([H(0), CX(0, 1), CX(1, 2)]);
    qc.AppendAll(MeasureAll);
  }

  method W3() returns (qc: QuantumCircuit)
    ensures fresh(qc) && qc.numQubits == 3 && qc.numClbits == 3 && qc.Valid()
    ensures qc.ops == W3Gates()
  {
    qc := new QuantumCircuit(3, 3);
    ThreeQubitGatesFit();
    qc.AppendAll([RY(2.0 * 0.61548, 0), CX(0, 1), RY(2.0 * 0.95532, 1), CX(1, 2), CX(0, 1)]);
    qc.AppendAll(MeasureAll);
  }

  /** The number of 1 bits of `i`. */
  function PopCount(i: nat): nat {
    if i == 0 then 0 else i % 2 + PopCount(i / 2)
  }

  /** `i` written in binary with `n` digits, most significant first: the count key of statevector index `i`. */
  function BitString(i: nat, n: nat): (r: string)
    ensures |r| == n
  {
    if n == 0 then "" else BitString(i / 2, n - 1) + [if i % 2 == 1 then '1' else '0']
  }

  /** The W statevector: `amp` at exactly the indices with one bit set, 0 elsewhere. */
  predicate IsWVector(v: seq<real>, amp: real) {
    |v| == 8 && forall i :: 0 <= i < 8 ==> v[i] == if PopCount(i) == 1 then amp else 0.0
  }

  /** The vector built in `w_3_initialize()`; `amp` is `1 / math.sqrt(3)`. */
  method W3InitializeVector(amp: real) returns (vec: array<real>)
    ensures fresh(vec) && IsWVector(vec[..], amp)
  {
    vec := new real[8](_ => 0.0);
    vec[1] := amp;
    vec[2] := amp;
    vec[4] := amp;
    assert PopCount(3) == 2 && PopCount(5) == 2 && PopCount(6) == 2 && PopCount(7) == 3;
  }

  /**
   * The indices the W vector fills are exactly those whose count key is one
   * of the W metric's keys "001", "010", "100".
   */
  lemma WIndicesAreWKeys(i: nat)
    requires i < 8
    ensures PopCount(i) == 1 <==> BitString(i, 3) == "001" || BitString(i, 3) == "010" || BitString(i, 3) == "100"
  {
    var b2, b1, b0 := (i / 4) % 2, (i / 2) % 2, i % 2;
    assert BitString(i / 4, 1) == BitString(i / 8, 0) + [if b2 == 1 then '1' else '0'];
    assert BitString(i / 2, 2) == BitString(i / 4, 1) + [if b1 == 1 then '1' else '0'];
    assert BitString(i, 3) == [if b2 == 1 then '1' else '0', if b1 == 1 then '1' else '0', if b0 == 1 then '1' else '0'];
    assert i / 8 == 0;
    assert PopCount(i) == b0 + b1 + b2 by {
      assert PopCount(i / 8) == 0;
      assert PopCount(i / 4) == b2 + PopCount(i / 8);
      assert PopCount(i / 2) == b1 + PopCount(i / 4);
    }
  }

  /** The W vector has norm 1 exactly when `3 * amp^2 == 1`, which `1 / sqrt(3)` satisfies. */
  lemma WVectorNorm(v: seq<real>, amp: real)
    requires IsWVector(v, amp)
    ensures v[0] * v[0] + v[1] * v[1] + v[2] * v[2] + v[3] * v[3] + v[4] * v[4] + v[5] * v[5] + v[6] * v[6] + v[7] * v[7] == 3.0 * amp * amp
  {
    assert PopCount(0) == 0 && PopCount(1) == 1 && PopCount(2) == 1 && PopCount(3) == 2;
    assert PopCount(4) == 1 && PopCount(5) == 2 && PopCount(6) == 2 && PopCount(7) == 3;
    assert v[0] == 0.0 && v[1] == amp && v[2] == amp && v[3] == 0.0;
    assert v[4] == amp && v[5] == 0.0 && v[6] == 0.0 && v[7] == 0.0;
  }

  function W3InitializeGates(vec: seq<real>): seq<Gate> {
    [Initialize(vec, [0, 1, 2])] + MeasureAll
  }

  /** `w_3_initialize()` */
  method W3Initialize(amp: real) returns (qc: QuantumCircuit)
    ensures fresh(qc) && qc.numQubits == 3 && qc.numClbits == 3 && qc.Valid()
    ensures exists v :: IsWVector(v, amp) && qc.ops == W3InitializeGates(v)
  {
    var vec := W3InitializeVector(amp);
    qc := new QuantumCircuit(3, 3);
    ThreeQubitGatesFit();
    assert Pow2(3) == 8;
    qc.Append(Initialize(vec[..], [0, 1, 2]));
    qc.AppendAll(MeasureAll);
    assert IsWVector(vec[..], amp) && qc.ops == W3InitializeGates(vec[..]);
  }

  /** Every circuit measures q0, q1, q2 into c0, c1, c2, and nothing else. */
  lemma MultipartiteMeasurements(v: seq<real>)
    ensures Measurements(GhzGates()) == [(0, 0), (1, 1), (2, 2)]
    ensures Measurements(W3Gates()) == [(0, 0), (1, 1), (2, 2)]
    ensures Measurements(W3InitializeGates(v)) == [(0, 0), (1, 1), (2, 2)]
  {
    assert Measurements(MeasureAll) == [(0, 0), (1, 1), (2, 2)] by {
      assert MeasureAll[1..][1..][1..] == [];
    }
    var pre := [H(0), CX(0, 1), CX(1, 2)];
    var rot := [RY(2.0 * 0.61548, 0), CX(0, 1), RY(2.0 * 0.95532, 1), CX(1, 2), CX(0, 1)];
    var init := [Initialize(v, [0, 1, 2])];
    NoMeasureHasNoMeasurements(pre);
    NoMeasureHasNoMeasurements(rot);
    NoMeasureHasNoMeasurements(init);
    MeasurementsAppend(pre, MeasureAll);
    MeasurementsAppend(rot, MeasureAll);
    MeasurementsAppend(init, MeasureAll);
  }

  /** The two metrics the sweep records at noise level `p`. */
  ghost predicate SweepEntry(p: real, amp: real, run: (seq<Gate>, NoiseConfig) -> Counts, ghz: real, w: real) {
    && ghz == MetricGhz(run(GhzGates(), InitializeWNoise(p)), Shots)
    && exists v :: IsWVector(v, amp) && w == MetricW(run(W3InitializeGates(v), InitializeWNoise(p)), Shots)
  }

  /**
   * The plotting sweep: one GHZ and one W metric per noise level, in order.
   * `run` stands for the simulator; each level uses the depolarizing model
   * on h, initialize and cx.
   */
  method RobustnessSweep(levels: seq<real>, amp: real, run: (seq<Gate>, NoiseConfig) -> Counts)
    returns (ghzVals: seq<real>, wVals: seq<real>)
    ensures |ghzVals| == |levels| && |wVals| == |levels|
    ensures forall i :: 0 <= i < |levels| ==> SweepEntry(levels[i], amp, run, ghzVals[i], wVals[i])
  {
    ghzVals, wVals := [], [];
    for i := 0 to |levels|
      invariant |ghzVals| == i && |wVals| == i
      invariant forall j :: 0 <= j < i ==> SweepEntry(levels[j], amp, run, ghzVals[j], wVals[j])
    {
      var nm := InitializeWNoise(levels[i]);
      var ghz := Ghz3();
      var w := W3Initialize(amp);
      var mGhz := MetricGhz(run(ghz.ops, nm), Shots);
      var mW := MetricW(run(w.ops, nm), Shots);
      ghzVals := ghzVals + [mGhz];
      wVals := wVals + [mW];
    }
  }
}
