/**
 * The |Phi+> circuits of the noise and agent experiments: H(0), CX(0, 1),
 * optionally some "timestep" identity pairs after the CX (so that a noise
 * model can attach decoherence to them), optionally H on both qubits to
 * measure in the X basis, then q0 -> c0 and q1 -> c1.
 */
module BellCircuits {
  import opened Wrappers
  import opened Circuits
  import opened Counts
  import opened Noise
  import opened NoiseInstances
  import opened Metrics

  const Shots := 4096
  const NoiseLevels: seq<real> := [0.0, 0.05, 0.10, 0.20, 0.30, 0.50]
  const UseTimestep := true
  const TimestepsAfterCx := 3

  const Measures: seq<Gate> := [Measure(0, 0), Measure(1, 1)]

  /** `bell_phi_plus_circuit()`, and the `bell_circuit()` of the shots optimiser. */
  function BellPhiPlusGates(): seq<Gate> {
    [H(0), CX(0, 1)] + Measures
  }

  method BellPhiPlusCircuit() returns (qc: QuantumCircuit)
    ensures fresh(qc) && qc.numQubits == 2 && qc.numClbits == 2 && qc.Valid()
    ensures qc.ops == BellPhiPlusGates()
  {
    qc := new QuantumCircuit(2, 2);
    qc.Append(H(0));
    qc.Append(CX(0, 1));
    qc.Append(Measure(0, 0));
    qc.Append(Measure(1, 1));
  }

  /** Python's `str.upper()` on one character, for the ASCII letters. */
  function UpperChar(c: char): char {
    if 'a' <= c <= 'z' then (c as int - 32) as char else c
  }

  function Upper(s: string): (r: string)
    ensures |r| == |s|
    ensures forall i :: 0 <= i < |s| ==> r[i] == UpperChar(s[i])
  {
    seq(|s|, i requires 0 <= i < |s| => UpperChar(s[i]))
  }

  /** `measure_basis.upper() == "X"` */
  predicate IsXBasis(basis: string) {
    Upper(basis) == "X"
  }

  /** The basis test is case-insensitive and accepts nothing but "x" and "X". */
  lemma XBasisCaseInsensitive(basis: string)
    ensures IsXBasis(basis) <==> basis == "X" || basis == "x"
  {
    if IsXBasis(basis) {
      assert |basis| == 1 && UpperChar(basis[0]) == 'X';
      assert basis == [basis[0]];
    }
  }

  const IdPair: seq<Gate> := [Id(0), Id(1)]

  function Timesteps(useTimestep: bool, t: nat): seq<Gate> {
    if useTimestep then Repeat(IdPair, t) else []
  }

  function BasisChange(basis: string): seq<Gate> {
    if IsXBasis(basis) then [H(0), H(1)] else []
  }

  /** `bell_phi_plus(measure_basis)` with the timestep switch and count as parameters. */
  function BellPhiPlusBasisGates(basis: string, useTimestep: bool, t: nat): seq<Gate> {
    [H(0), CX(0, 1)] + Timesteps(useTimestep, t) + BasisChange(basis) + Measures
  }

  lemma TwoQubitBlocksFit()
    ensures AllFit([H(0), CX(0, 1)], 2, 2) && AllFit(IdPair, 2, 2)
    ensures AllFit([H(0), H(1)], 2, 2) && AllFit(Measures, 2, 2)
  {
  }

  /** `bell_phi_plus(measure_basis)` */
  method BellPhiPlus(basis: string) returns (qc: QuantumCircuit)
    ensures fresh(qc) && qc.numQubits == 2 && qc.numClbits == 2 && qc.Valid()
    ensures qc.ops == BellPhiPlusBasisGates(basis, UseTimestep, TimestepsAfterCx)
  {
    qc := new QuantumCircuit(2, 2);
    TwoQubitBlocksFit();
    qc.AppendAll([H(0), CX(0, 1)]);
    if UseTimestep {
      qc.AppendRepeat(IdPair, TimestepsAfterCx);
    }
    assert qc.ops == [H(0), CX(0, 1)] + Timesteps(UseTimestep, TimestepsAfterCx);
    if Upper(basis) == "X" {
      qc.AppendAll([H(0), H(1)]);
    }
    assert qc.ops == [H(0), CX(0, 1)] + Timesteps(UseTimestep, TimestepsAfterCx) + BasisChange(basis);
    qc.AppendAll(Measures);
  }

  /** Exactly `t` identity gates on each qubit with the timestep switch on, none with it off. */
  lemma TimestepIdCount(basis: string, useTimestep: bool, t: nat, g: Gate)
    requires g == Id(0) || g == Id(1)
    ensures Count(BellPhiPlusBasisGates(basis, useTimestep, t), g) == (if useTimestep then t else 0)
  {
    var head := [H(0), CX(0, 1)];
    var ts := Timesteps(useTimestep, t);
    var bc := BasisChange(basis);
    CountAppend(head + ts + bc, Measures, g);
    CountAppend(head + ts, bc, g);
    CountAppend(head, ts, g);
    CountPair(H(0), CX(0, 1), g);
    CountPair(Measure(0, 0), Measure(1, 1), g);
    if IsXBasis(basis) {
      CountPair(H(0), H(1), g);
    } else {
      assert bc == [];
    }
    if useTimestep {
      CountRepeat(IdPair, t, g);
      CountPair(Id(0), Id(1), g);
    } else {
      assert ts == [];
    }
  }

  /** The identity gates sit straight after the CX, alternating q0 and q1. */
  lemma TimestepIdsFollowCx(basis: string, t: nat, i: nat)
    requires i < t
    ensures BellPhiPlusBasisGates(basis, true, t)[1] == CX(0, 1)
    ensures BellPhiPlusBasisGates(basis, true, t)[2 + 2 * i] == Id(0)
    ensures BellPhiPlusBasisGates(basis, true, t)[3 + 2 * i] == Id(1)
  {
    RepeatAt(IdPair, t, i, 0);
    RepeatAt(IdPair, t, i, 1);
  }

  /** The X-basis circuit is the Z-basis circuit with H(0), H(1) inserted just before the two measurements. */
  lemma XVariantAddsHadamards(useTimestep: bool, t: nat)
    ensures var z := BellPhiPlusBasisGates("Z", useTimestep, t);
      BellPhiPlusBasisGates("X", useTimestep, t) == z[..|z| - 2] + [H(0), H(1)] + z[|z| - 2..]
    ensures var z := BellPhiPlusBasisGates("z", useTimestep, t);
      BellPhiPlusBasisGates("x", useTimestep, t) == z[..|z| - 2] + [H(0), H(1)] + z[|z| - 2..]
  {
    XBasisCaseInsensitive("Z");
    XBasisCaseInsensitive("z");
    XBasisCaseInsensitive("X");
    XBasisCaseInsensitive("x");
    var z := BellPhiPlusBasisGates("Z", useTimestep, t);
    assert z[..|z| - 2] == [H(0), CX(0, 1)] + Timesteps(useTimestep, t);
    assert z[|z| - 2..] == Measures;
  }

  /** Every variant measures q0 into c0 and q1 into c1, and nothing else. */
  lemma BellMeasurements(basis: string, useTimestep: bool, t: nat)
    ensures Measurements(BellPhiPlusBasisGates(basis, useTimestep, t)) == [(0, 0), (1, 1)]
    ensures Measurements(BellPhiPlusGates()) == [(0, 0), (1, 1)]
  {
    var ts := Timesteps(useTimestep, t);
    assert NoMeasure(ts) by {
      if useTimestep {
        forall k | 0 <= k < |ts| ensures !ts[k].Measure? {
          RepeatAt(IdPair, t, k / 2, k % 2);
        }
      }
    }
    NoMeasureHasNoMeasurements(ts);
    var pre := [H(0), CX(0, 1)];
    var bc := BasisChange(basis);
    NoMeasureHasNoMeasurements(pre);
    NoMeasureHasNoMeasurements(bc);
    MeasurementsAppend(pre + ts + bc, Measures);
    MeasurementsAppend(pre + ts, bc);
    MeasurementsAppend(pre, ts);
    MeasurementsAppend(pre, Measures);
    assert Measures[1..][1..] == [];
  }

  /** Without timesteps, the Z-basis circuit is the plain Bell circuit. */
  lemma PlainBellIsZBasisWithoutTimesteps()
    ensures BellPhiPlusBasisGates("Z", false, 0) == BellPhiPlusGates()
  {
    XBasisCaseInsensitive("Z");
  }

  /** `bell_state_phi_plus()`: no measurement, no classical bits. */
  method BellStatePhiPlus() returns (qc: QuantumCircuit)
    ensures fresh(qc) && qc.numQubits == 2 && qc.numClbits == 0 && qc.Valid()
    ensures qc.ops == [H(0), CX(0, 1)]
  {
    qc := new QuantumCircuit(2, 0);
    qc.Append(H(0));
    qc.Append(CX(0, 1));
  }

  /** `measure_in_z()` */
  method MeasureInZ() returns (qc: QuantumCircuit)
    ensures fresh(qc) && qc.numQubits == 2 && qc.numClbits == 2 && qc.Valid()
    ensures qc.ops == BellPhiPlusBasisGates("Z", false, 0)
  {
    qc := new QuantumCircuit(2, 2);
    var bell := BellStatePhiPlus();
    qc.Compose(bell);
    qc.AppendAll(Measures);
    XBasisCaseInsensitive("Z");
  }

  /** `measure_in_x()` */
  method MeasureInX() returns (qc: QuantumCircuit)
    ensures fresh(qc) && qc.numQubits == 2 && qc.numClbits == 2 && qc.Valid()
    ensures qc.ops == BellPhiPlusBasisGates("X", false, 0)
  {
    qc := new QuantumCircuit(2, 2);
    var bell := BellStatePhiPlus();
    qc.Compose(bell);
    qc.Append(H(0));
    qc.Append(H(1));
    qc.AppendAll(Measures);
    XBasisCaseInsensitive("X");
  }

  /**
   * `corr_for(kind)`: one Z-basis and one X-basis correlation per noise
   * level, in order.  `run` stands for the simulator; the noise model of
   * a level is the timestep Bell model, and an unknown kind raises at the
   * first level with p > 0.
   */
  method CorrFor(kind: string, levels: seq<real>, run: (seq<Gate>, NoiseConfig) -> Counts)
    returns (r: Result<(seq<real>, seq<real>), string>)
    ensures r.Failure? <==> exists i :: 0 <= i < |levels| && TimestepBellNoise(kind, levels[i]).Failure?
    ensures r.Failure? ==> r.error == "Unknown noise kind"
    ensures r.Success? ==> |r.value.0| == |levels| && |r.value.1| == |levels|
    ensures r.Success? ==> forall i :: 0 <= i < |levels| ==>
      r.value.0[i] == CorrRate(run(BellPhiPlusBasisGates("Z", UseTimestep, TimestepsAfterCx), TimestepBellNoise(kind, levels[i]).value), Shots) &&
      r.value.1[i] == CorrRate(run(BellPhiPlusBasisGates("X", UseTimestep, TimestepsAfterCx), TimestepBellNoise(kind, levels[i]).value), Shots)
  {
    var corrZ: seq<real> := [];
    var corrX: seq<real> := [];
    for i := 0 to |levels|
      invariant forall j :: 0 <= j < i ==> TimestepBellNoise(kind, levels[j]).Success?
      invariant |corrZ| == i && |corrX| == i
      invariant forall j :: 0 <= j < i ==>
        corrZ[j] == CorrRate(run(BellPhiPlusBasisGates("Z", UseTimestep, TimestepsAfterCx), TimestepBellNoise(kind, levels[j]).value), Shots) &&
        corrX[j] == CorrRate(run(BellPhiPlusBasisGates("X", UseTimestep, TimestepsAfterCx), TimestepBellNoise(kind, levels[j]).value), Shots)
    {
      var nm := TimestepBellNoise(kind, levels[i]);
      if nm.Failure? {
        TimestepBellNoiseShape(kind, levels[i]);
        return Failure(nm.error);
      }
      var z := BellPhiPlus("Z");
      var x := BellPhiPlus("X");
      var cz := CorrRate(run(z.ops, nm.value), Shots);
      var cx := CorrRate(run(x.ops, nm.value), Shots);
      corrZ := corrZ + [cz];
      corrX := corrX + [cx];
    }
    return Success((corrZ, corrX));
  }
}
