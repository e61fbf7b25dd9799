/**
 * Noise-model configuration as the scripts build it: which error channel
 * is attached to which gate name, and an optional readout-error matrix.
 * What the simulator then does with the channels is outside the model.
 */
module Noise {
  import opened Wrappers

  /** `depolarizing_error(p, arity)` and `phase_damping_error(p)`. */
  datatype QuantumError =
    | Depolarizing(p: real, arity: nat)
    | PhaseDamping(p: real)

  type Matrix = seq<seq<real>>

  /** The content of a noise model: the errors per gate name, in the order added, and the readout matrix. */
  datatype NoiseConfig = NoiseConfig(errors: map<string, seq<QuantumError>>, readout: Option<Matrix>)

  const Ideal: NoiseConfig := NoiseConfig(map[], None)

  /** One `add_all_qubit_quantum_error(e, g)`: a second error on the same gate is composed after the first. */
  function AddOne(errors: map<string, seq<QuantumError>>, e: QuantumError, g: string): map<string, seq<QuantumError>> {
    errors[g := (if g in errors then errors[g] else []) + [e]]
  }

  /** `add_all_qubit_quantum_error(e, gates)`: the gates of the list one after another. */
  function WithError(errors: map<string, seq<QuantumError>>, e: QuantumError, gates: seq<string>): map<string, seq<QuantumError>>
    decreases |gates|
  {
    if gates == [] then errors
    else AddOne(WithError(errors, e, gates[..|gates| - 1]), e, gates[|gates| - 1])
  }

  predicate NoRepeats(gates: seq<string>) {
    forall i, j :: 0 <= i < j < |gates| ==> gates[i] != gates[j]
  }

  /**
   * Adding an error to a list of distinct gate names gives exactly those
   * names one more error each and leaves every other entry alone.
   */
  lemma {:induction false} WithErrorEffect(errors: map<string, seq<QuantumError>>, e: QuantumError, gates: seq<string>)
    requires NoRepeats(gates)
    ensures forall g :: g in WithError(errors, e, gates) <==> g in errors || g in gates
    ensures forall g :: g in gates ==> WithError(errors, e, gates)[g] == (if g in errors then errors[g] else []) + [e]
    ensures forall g :: g in errors && g !in gates ==> WithError(errors, e, gates)[g] == errors[g]
    decreases |gates|
  {
    if gates != [] {
      var init := gates[..|gates| - 1];
      var last := gates[|gates| - 1];
      assert NoRepeats(init);
      WithErrorEffect(errors, e, init);
      assert last !in init;
      assert gates == init + [last];
    }
  }

  /** Two calls, one list after the other, equal one call with both lists. */
  lemma {:induction false} WithErrorAppend(errors: map<string, seq<QuantumError>>, e: QuantumError, a: seq<string>, b: seq<string>)
    ensures WithError(WithError(errors, e, a), e, b) == WithError(errors, e, a + b)
    decreases |b|
  {
    if b == [] {
      assert a + b == a;
    } else {
      var init := b[..|b| - 1];
      WithErrorAppend(errors, e, a, init);
      assert (a + b)[..|a + b| - 1] == a + init;
    }
  }

  /** `[[1 - p, p], [p, 1 - p]]`: a readout bit flips with probability p. */
  function ReadoutMatrix(p: real): Matrix {
    [[1.0 - p, p], [p, 1.0 - p]]
  }

  /** The readout matrix is symmetric, each row sums to 1, and for 0 <= p <= 1 it is a stochastic matrix. */
  lemma ReadoutMatrixStochastic(p: real)
    ensures var m := ReadoutMatrix(p);
      && |m| == 2 && |m[0]| == 2 && |m[1]| == 2
      && m[0][0] + m[0][1] == 1.0 && m[1][0] + m[1][1] == 1.0
      && m[0][1] == m[1][0] && m[0][0] == m[1][1]
      && (0.0 <= p <= 1.0 ==> forall i, j :: 0 <= i < 2 && 0 <= j < 2 ==> 0.0 <= m[i][j] <= 1.0)
  {
  }

  /** `NoiseModel()`: errors are added one gate list at a time, the readout error once. */
  class NoiseModel {
    var errors: map<string, seq<QuantumError>>
    var readout: Option<Matrix>

    constructor ()
      ensures errors == map[] && readout == None
    {
      errors := map[];
      readout := None;
    }

    function Config(): NoiseConfig
      reads this
    {
      NoiseConfig(errors, readout)
    }

    /** `add_all_qubit_quantum_error(e, gates)`; a single gate name is the one-element list. */
    method AddAllQubitQuantumError(e: QuantumError, gates: seq<string>)
      modifies this
      ensures errors == WithError(old(errors), e, gates) && readout == old(readout)
    {
      var i := 0;
      while i < |gates|
        invariant 0 <= i <= |gates|
        invariant errors == WithError(old(errors), e, gates[..i]) && readout == old(readout)
      {
        assert gates[..i + 1][..i] == gates[..i];
        errors := AddOne(errors, e, gates[i]);
        i := i + 1;
      }
      assert gates[..i] == gates;
    }

    /** `add_all_qubit_readout_error(ro)` */
    method AddAllQubitReadoutError(m: Matrix)
      modifies this
      ensures errors == old(errors) && readout == Some(m)
    {
      readout := Some(m);
    }
  }

  // ---------------------------------------------------------------
  // Depolarizing gate noise plus readout noise (the Deutsch-Jozsa sweeps)
  // ---------------------------------------------------------------

  /** What `build_noise_model(p_gate, p_readout)` of the Deutsch-Jozsa noise experiments builds. */
  function GateAndReadoutNoise(pGate: real, pReadout: real): NoiseConfig {
    NoiseConfig(
      if pGate > 0.0 then WithError(WithError(map[], Depolarizing(pGate, 1), ["x", "h", "z"]), Depolarizing(pGate, 2), ["cx"])
      else map[],
      if pReadout > 0.0 then Some(ReadoutMatrix(pReadout)) else None)
  }

  method BuildGateAndReadoutNoise(pGate: real, pReadout: real) returns (nm: NoiseModel)
    ensures fresh(nm) && nm.Config() == GateAndReadoutNoise(pGate, pReadout)
  {
    nm := new NoiseModel();
    if pGate > 0.0 {
      var err1 := Depolarizing(pGate, 1);
      var err2 := Depolarizing(pGate, 2);
      var gates := ["x", "h", "z"];
      for k := 0 to |gates|
        invariant nm.errors == WithError(map[], err1, gates[..k]) && nm.readout == None
      {
        nm.AddAllQubitQuantumError(err1, [gates[k]]);
        WithErrorAppend(map[], err1, gates[..k], [gates[k]]);
        assert gates[..k] + [gates[k]] == gates[..k + 1];
      }
      assert gates[..|gates|] == gates;
      nm.AddAllQubitQuantumError(err2, ["cx"]);
    }
    if pReadout > 0.0 {
      nm.AddAllQubitReadoutError(ReadoutMatrix(pReadout));
    }
  }

  /**
   * With p_gate > 0 exactly x, h and z carry one 1-qubit depolarizing error
   * and cx one 2-qubit error; otherwise no gate is noisy.  The readout
   * matrix is there exactly when p_readout > 0.
   */
  lemma GateAndReadoutNoiseShape(pGate: real, pReadout: real)
    ensures var c := GateAndReadoutNoise(pGate, pReadout);
      && (pGate > 0.0 ==>
            && c.errors.Keys == {"x", "h", "z", "cx"}
            && c.errors["x"] == c.errors["h"] == c.errors["z"] == [Depolarizing(pGate, 1)]
            && c.errors["cx"] == [Depolarizing(pGate, 2)])
      && (pGate <= 0.0 ==> c.errors == map[])
      && (c.readout.Some? <==> pReadout > 0.0)
      && (c.readout.Some? ==> c.readout.value == ReadoutMatrix(pReadout))
  {
    if pGate > 0.0 {
      var ones := ["x", "h", "z"];
      var m1 := WithError(map[], Depolarizing(pGate, 1), ones);
      WithErrorEffect(map[], Depolarizing(pGate, 1), ones);
      WithErrorEffect(m1, Depolarizing(pGate, 2), ["cx"]);
      assert "x" in ones && "h" in ones && "z" in ones;
    }
  }

  /** With neither gate nor readout noise the model is ideal. */
  lemma NoNoiseIsIdeal(pGate: real, pReadout: real)
    requires pGate <= 0.0 && pReadout <= 0.0
    ensures GateAndReadoutNoise(pGate, pReadout) == Ideal
  {
  }

  // ---------------------------------------------------------------
  // Depolarizing noise on named 1- and 2-qubit gates, guarded by p > 0
  // ---------------------------------------------------------------

  /** 1-qubit depolarizing(p) on every gate of `one`, then 2-qubit depolarizing(p) on every gate of `two`. */
  function DepolarizingOn(p: real, one: seq<string>, two: seq<string>): map<string, seq<QuantumError>> {
    WithError(WithError(map[], Depolarizing(p, 1), one), Depolarizing(p, 2), two)
  }

  /** `if p > 0: add(depolarizing_error(p, 1), one); add(depolarizing_error(p, 2), two)` */
  function GuardedDepolarizing(p: real, one: seq<string>, two: seq<string>): NoiseConfig {
    if p > 0.0 then NoiseConfig(DepolarizingOn(p, one, two), None) else Ideal
  }

  method BuildGuardedDepolarizing(p: real, one: seq<string>, two: seq<string>) returns (nm: NoiseModel)
    ensures fresh(nm) && nm.Config() == GuardedDepolarizing(p, one, two)
  {
    nm := new NoiseModel();
    if p > 0.0 {
      nm.AddAllQubitQuantumError(Depolarizing(p, 1), one);
      nm.AddAllQubitQuantumError(Depolarizing(p, 2), two);
    }
  }

  /** The same two calls with no guard on p. */
  method BuildDepolarizing(p: real, one: seq<string>, two: seq<string>) returns (nm: NoiseModel)
    ensures fresh(nm) && nm.Config() == NoiseConfig(DepolarizingOn(p, one, two), None)
  {
    nm := new NoiseModel();
    nm.AddAllQubitQuantumError(Depolarizing(p, 1), one);
    nm.AddAllQubitQuantumError(Depolarizing(p, 2), two);
  }

  /** Exactly the gates of `one` get one 1-qubit error and those of `two` one 2-qubit error. */
  lemma DepolarizingOnShape(p: real, one: seq<string>, two: seq<string>)
    requires NoRepeats(one) && NoRepeats(two)
    requires forall g :: g in one ==> g !in two
    ensures var m := DepolarizingOn(p, one, two);
      && (forall g :: g in m <==> g in one || g in two)
      && (forall g :: g in one ==> m[g] == [Depolarizing(p, 1)])
      && (forall g :: g in two ==> m[g] == [Depolarizing(p, 2)])
  {
    var m1 := WithError(map[], Depolarizing(p, 1), one);
    WithErrorEffect(map[], Depolarizing(p, 1), one);
    WithErrorEffect(m1, Depolarizing(p, 2), two);
  }

  /** p <= 0 gives the ideal model, whatever the gate lists. */
  lemma GuardedDepolarizingIdeal(p: real, one: seq<string>, two: seq<string>)
    requires p <= 0.0
    ensures GuardedDepolarizing(p, one, two) == Ideal
  {
  }

  // ---------------------------------------------------------------
  // "phase" or "depolarizing" by name
  // ---------------------------------------------------------------

  /**
   * `build_noise_model(kind, p)` of the experiments that compare phase
   * damping with depolarizing noise: p <= 0 returns the empty model before
   * the kind is looked at; "phase" puts phase damping on `phaseGates`;
   * "depolarizing" puts 1-qubit depolarizing on `depGates` and 2-qubit
   * depolarizing on `twoGates`; any other kind raises ValueError.
   */
  function KindNoise(kind: string, p: real, phaseGates: seq<string>, depGates: seq<string>, twoGates: seq<string>): (r: Result<NoiseConfig, string>)
    ensures r.Failure? <==> p > 0.0 && kind != "phase" && kind != "depolarizing"
    ensures r.Success? ==> r.value.readout == None
  {
    if p <= 0.0 then Success(Ideal)
    else if kind == "phase" then Success(NoiseConfig(WithError(map[], PhaseDamping(p), phaseGates), None))
    else if kind == "depolarizing" then Success(NoiseConfig(DepolarizingOn(p, depGates, twoGates), None))
    else Failure("Unknown noise kind")
  }

  /** The builder; `nm` is the model returned, `None` stands for the ValueError. */
  method BuildKindNoise(kind: string, p: real, phaseGates: seq<string>, depGates: seq<string>, twoGates: seq<string>)
    returns (r: Result<NoiseModel, string>)
    ensures r.Failure? <==> KindNoise(kind, p, phaseGates, depGates, twoGates).Failure?
    ensures r.Failure? ==> r.error == KindNoise(kind, p, phaseGates, depGates, twoGates).error
    ensures r.Success? ==> fresh(r.value) && r.value.Config() == KindNoise(kind, p, phaseGates, depGates, twoGates).value
  {
    var nm := new NoiseModel();
    if p <= 0.0 {
      return Success(nm);
    }
    if kind == "phase" {
      nm.AddAllQubitQuantumError(PhaseDamping(p), phaseGates);
    } else if kind == "depolarizing" {
      nm.AddAllQubitQuantumError(Depolarizing(p, 1), depGates);
      nm.AddAllQubitQuantumError(Depolarizing(p, 2), twoGates);
    } else {
      return Failure("Unknown noise kind");
    }
    return Success(nm);
  }

  /** Phase damping lands exactly on `phaseGates`, one channel each, and never on a 2-qubit gate. */
  lemma KindNoisePhaseShape(p: real, phaseGates: seq<string>, depGates: seq<string>, twoGates: seq<string>)
    requires p > 0.0 && NoRepeats(phaseGates)
    ensures var r := KindNoise("phase", p, phaseGates, depGates, twoGates);
      && r.Success?
      && (forall g :: g in r.value.errors <==> g in phaseGates)
      && forall g :: g in phaseGates ==> g in r.value.errors && r.value.errors[g] == [PhaseDamping(p)]
  {
    WithErrorEffect(map[], PhaseDamping(p), phaseGates);
  }

  /** Depolarizing lands exactly on `depGates` (1-qubit) and `twoGates` (2-qubit), one channel each. */
  lemma KindNoiseDepolarizingShape(p: real, phaseGates: seq<string>, depGates: seq<string>, twoGates: seq<string>)
    requires p > 0.0 && NoRepeats(depGates) && NoRepeats(twoGates)
    requires forall g :: g in depGates ==> g !in twoGates
    ensures var r := KindNoise("depolarizing", p, phaseGates, depGates, twoGates);
      && r.Success?
      && (forall g :: g in r.value.errors <==> g in depGates || g in twoGates)
      && (forall g :: g in depGates ==> g in r.value.errors && r.value.errors[g] == [Depolarizing(p, 1)])
      && (forall g :: g in twoGates ==> g in r.value.errors && r.value.errors[g] == [Depolarizing(p, 2)])
  {
    DepolarizingOnShape(p, depGates, twoGates);
  }
}
