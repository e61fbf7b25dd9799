/**
 * The concrete noise models of the individual experiments, each an
 * instance of the builders in `Noise` with its own gate names.
 */
module NoiseInstances {
  import opened Wrappers
  import opened Noise

  // ----- kind-selected models -----

  /** Interference (H Z H) experiment: both channels on h and z only. */
  function InterferenceNoise(kind: string, p: real): Result<NoiseConfig, string> {
    KindNoise(kind, p, ["h", "z"], ["h", "z"], [])
  }

  lemma InterferenceNoiseShape(kind: string, p: real)
    ensures p <= 0.0 ==> InterferenceNoise(kind, p) == Success(Ideal)
    ensures p > 0.0 && kind == "phase" ==>
      InterferenceNoise(kind, p) == Success(NoiseConfig(map["h" := [PhaseDamping(p)], "z" := [PhaseDamping(p)]], None))
    ensures p > 0.0 && kind == "depolarizing" ==>
      InterferenceNoise(kind, p) == Success(NoiseConfig(map["h" := [Depolarizing(p, 1)], "z" := [Depolarizing(p, 1)]], None))
    ensures p > 0.0 && kind != "phase" && kind != "depolarizing" ==> InterferenceNoise(kind, p) == Failure("Unknown noise kind")
  {
    if p > 0.0 && kind == "phase" {
      KindNoisePhaseShape(p, ["h", "z"], ["h", "z"], []);
      var m := InterferenceNoise(kind, p).value.errors;
      assert m.Keys == {"h", "z"};
      assert m == map["h" := [PhaseDamping(p)], "z" := [PhaseDamping(p)]];
    }
    if p > 0.0 && kind == "depolarizing" {
      KindNoiseDepolarizingShape(p, ["h", "z"], ["h", "z"], []);
      var m := InterferenceNoise(kind, p).value.errors;
      assert m.Keys == {"h", "z"};
      assert m == map["h" := [Depolarizing(p, 1)], "z" := [Depolarizing(p, 1)]];
    }
  }

  /** Bell-correlation and basis-selection experiments: phase damping on h only; depolarizing on h and cx. */
  function BellNoise(kind: string, p: real): Result<NoiseConfig, string> {
    KindNoise(kind, p, ["h"], ["h"], ["cx"])
  }

  lemma BellNoiseShape(kind: string, p: real)
    ensures p <= 0.0 ==> BellNoise(kind, p) == Success(Ideal)
    ensures p > 0.0 && kind == "phase" ==>
      BellNoise(kind, p) == Success(NoiseConfig(map["h" := [PhaseDamping(p)]], None))
    ensures p > 0.0 && kind == "depolarizing" ==>
      BellNoise(kind, p) == Success(NoiseConfig(map["h" := [Depolarizing(p, 1)], "cx" := [Depolarizing(p, 2)]], None))
    ensures p > 0.0 && kind != "phase" && kind != "depolarizing" ==> BellNoise(kind, p) == Failure("Unknown noise kind")
  {
    if p > 0.0 && kind == "phase" {
      KindNoisePhaseShape(p, ["h"], ["h"], ["cx"]);
      var m := BellNoise(kind, p).value.errors;
      assert m.Keys == {"h"};
      assert m == map["h" := [PhaseDamping(p)]];
    }
    if p > 0.0 && kind == "depolarizing" {
      KindNoiseDepolarizingShape(p, ["h"], ["h"], ["cx"]);
      var m := BellNoise(kind, p).value.errors;
      assert m.Keys == {"h", "cx"};
      assert m == map["h" := [Depolarizing(p, 1)], "cx" := [Depolarizing(p, 2)]];
    }
  }

  /** Bell correlations with idle time steps: both channels on h and id; depolarizing also on cx. */
  function TimestepBellNoise(kind: string, p: real): Result<NoiseConfig, string> {
    KindNoise(kind, p, ["h", "id"], ["h", "id"], ["cx"])
  }

  lemma TimestepBellNoiseShape(kind: string, p: real)
    ensures p <= 0.0 ==> TimestepBellNoise(kind, p) == Success(Ideal)
    ensures p > 0.0 && kind == "phase" ==>
      TimestepBellNoise(kind, p) == Success(NoiseConfig(map["h" := [PhaseDamping(p)], "id" := [PhaseDamping(p)]], None))
    ensures p > 0.0 && kind == "depolarizing" ==>
      TimestepBellNoise(kind, p)
        == Success(NoiseConfig(map["h" := [Depolarizing(p, 1)], "id" := [Depolarizing(p, 1)], "cx" := [Depolarizing(p, 2)]], None))
    ensures p > 0.0 && kind != "phase" && kind != "depolarizing" ==> TimestepBellNoise(kind, p) == Failure("Unknown noise kind")
  {
    if p > 0.0 && kind == "phase" {
      KindNoisePhaseShape(p, ["h", "id"], ["h", "id"], ["cx"]);
      var m := TimestepBellNoise(kind, p).value.errors;
      assert m.Keys == {"h", "id"};
      assert m == map["h" := [PhaseDamping(p)], "id" := [PhaseDamping(p)]];
    }
    if p > 0.0 && kind == "depolarizing" {
      KindNoiseDepolarizingShape(p, ["h", "id"], ["h", "id"], ["cx"]);
      var m := TimestepBellNoise(kind, p).value.errors;
      assert m.Keys == {"h", "id", "cx"};
      assert m == map["h" := [Depolarizing(p, 1)], "id" := [Depolarizing(p, 1)], "cx" := [Depolarizing(p, 2)]];
    }
  }

  /** The depolarizing branch adds h and id in two calls; that is one call with both names. */
  lemma TimestepBellTwoCalls(p: real)
    ensures WithError(WithError(map[], Depolarizing(p, 1), ["h"]), Depolarizing(p, 1), ["id"])
         == WithError(map[], Depolarizing(p, 1), ["h", "id"])
  {
    WithErrorAppend(map[], Depolarizing(p, 1), ["h"], ["id"]);
    assert ["h"] + ["id"] == ["h", "id"];
  }

  const TeleportationOneQubitGates: seq<string> := ["h", "id", "ry", "rz", "z"]

  /** Teleportation: both channels on the five 1-qubit gates; depolarizing also on cx. */
  function TeleportationNoise(kind: string, p: real): Result<NoiseConfig, string> {
    KindNoise(kind, p, TeleportationOneQubitGates, TeleportationOneQubitGates, ["cx"])
  }

  lemma TeleportationNoiseShape(kind: string, p: real)
    ensures p <= 0.0 ==> TeleportationNoise(kind, p) == Success(Ideal)
    ensures p > 0.0 && kind == "phase" ==>
      var m := TeleportationNoise(kind, p).value.errors;
      && m.Keys == {"h", "id", "ry", "rz", "z"}
      && forall g :: g in m ==> m[g] == [PhaseDamping(p)]
    ensures p > 0.0 && kind == "depolarizing" ==>
      var m := TeleportationNoise(kind, p).value.errors;
      && m.Keys == {"h", "id", "ry", "rz", "z", "cx"}
      && (forall g :: g in m && g != "cx" ==> m[g] == [Depolarizing(p, 1)])
      && m["cx"] == [Depolarizing(p, 2)]
    ensures p > 0.0 && kind != "phase" && kind != "depolarizing" ==> TeleportationNoise(kind, p) == Failure("Unknown noise kind")
  {
    var gs := TeleportationOneQubitGates;
    assert "depolarizing"[0] != "phase"[0];
    if p > 0.0 && kind == "phase" {
      KindNoisePhaseShape(p, gs, gs, ["cx"]);
    }
    if p > 0.0 && kind == "depolarizing" {
      KindNoiseDepolarizingShape(p, gs, gs, ["cx"]);
    }
  }

  // ----- depolarizing on named gates -----

  /** Shots optimiser and threshold policy: 1-qubit depolarizing on h, 2-qubit on cx, when p > 0. */
  function HAndCxNoise(p: real): NoiseConfig {
    GuardedDepolarizing(p, ["h"], ["cx"])
  }

  lemma HAndCxNoiseShape(p: real)
    ensures p <= 0.0 ==> HAndCxNoise(p) == Ideal
    ensures p > 0.0 ==> HAndCxNoise(p) == NoiseConfig(map["h" := [Depolarizing(p, 1)], "cx" := [Depolarizing(p, 2)]], None)
  {
    if p > 0.0 {
      DepolarizingOnShape(p, ["h"], ["cx"]);
      var m := HAndCxNoise(p).errors;
      assert m.Keys == {"h", "cx"};
      assert m == map["h" := [Depolarizing(p, 1)], "cx" := [Depolarizing(p, 2)]];
    }
  }

  /** GHZ versus W with the rotation circuit: h and ry get 1-qubit errors, cx a 2-qubit one, when p > 0. */
  function RotationWNoise(p: real): NoiseConfig {
    GuardedDepolarizing(p, ["h", "ry"], ["cx"])
  }

  lemma RotationWNoiseShape(p: real)
    ensures p <= 0.0 ==> RotationWNoise(p) == Ideal
    ensures p > 0.0 ==>
      RotationWNoise(p) == NoiseConfig(map["h" := [Depolarizing(p, 1)], "ry" := [Depolarizing(p, 1)], "cx" := [Depolarizing(p, 2)]], None)
  {
    if p > 0.0 {
      DepolarizingOnShape(p, ["h", "ry"], ["cx"]);
      var m := RotationWNoise(p).errors;
      assert m.Keys == {"h", "ry", "cx"};
      assert m == map["h" := [Depolarizing(p, 1)], "ry" := [Depolarizing(p, 1)], "cx" := [Depolarizing(p, 2)]];
    }
  }

  /** GHZ versus W with `initialize`: h and initialize get 1-qubit errors, cx a 2-qubit one, when p > 0. */
  function InitializeWNoise(p: real): NoiseConfig {
    GuardedDepolarizing(p, ["h", "initialize"], ["cx"])
  }

  lemma InitializeWNoiseShape(p: real)
    ensures p <= 0.0 ==> InitializeWNoise(p) == Ideal
    ensures p > 0.0 ==>
      InitializeWNoise(p)
        == NoiseConfig(map["h" := [Depolarizing(p, 1)], "initialize" := [Depolarizing(p, 1)], "cx" := [Depolarizing(p, 2)]], None)
  {
    if p > 0.0 {
      DepolarizingOnShape(p, ["h", "initialize"], ["cx"]);
      var m := InitializeWNoise(p).errors;
      assert m.Keys == {"h", "initialize", "cx"};
      assert m == map["h" := [Depolarizing(p, 1)], "initialize" := [Depolarizing(p, 1)], "cx" := [Depolarizing(p, 2)]];
    }
  }

  /** The gate names of the Grover experiments: 1-qubit h and x, 2-qubit cx and cz. */
  function GroverErrors(p: real): map<string, seq<QuantumError>> {
    DepolarizingOn(p, ["h", "x"], ["cx", "cz"])
  }

  lemma GroverErrorsShape(p: real)
    ensures GroverErrors(p)
      == map["h" := [Depolarizing(p, 1)], "x" := [Depolarizing(p, 1)], "cx" := [Depolarizing(p, 2)], "cz" := [Depolarizing(p, 2)]]
  {
    DepolarizingOnShape(p, ["h", "x"], ["cx", "cz"]);
    var m := GroverErrors(p);
    assert m.Keys == {"h", "x", "cx", "cz"};
  }

  /** Grover under noise: the errors only when p > 0. */
  function GroverNoise(p: real): NoiseConfig {
    GuardedDepolarizing(p, ["h", "x"], ["cx", "cz"])
  }

  lemma GroverNoiseShape(p: real)
    ensures p <= 0.0 ==> GroverNoise(p) == Ideal
    ensures p > 0.0 ==> GroverNoise(p) == NoiseConfig(GroverErrors(p), None)
  {
  }

  /** Grover stopping rule: the same errors with no guard, so p = 0 still attaches (ideal) channels. */
  function GroverStoppingNoise(p: real): NoiseConfig {
    NoiseConfig(GroverErrors(p), None)
  }

  lemma GroverStoppingNoiseUnguarded(p: real)
    ensures GroverStoppingNoise(p).errors.Keys == {"h", "x", "cx", "cz"}
    ensures GroverStoppingNoise(p) != Ideal
  {
    GroverErrorsShape(p);
    assert "h" in GroverStoppingNoise(p).errors;
  }
}
