/**
 * The coherent teleportation circuit of the communication experiments:
 * |psi> = RZ(phi) RY(theta) |0> on q0, a Bell pair on q1, q2, the Bell
 * measurement rotations on q0, q1, and the corrections as controlled gates
 * (X on q2 controlled by q1, Z on q2 controlled by q0).  With timesteps on,
 * identity gates model time passing after each stage.
 */
module Teleportation {
  import opened Wrappers
  import opened Circuits
  import opened Noise
  import opened NoiseInstances

  const Theta: real := 0.83
  const Phi: real := 1.17
  const NoiseLevels: seq<real> := [0.0, 0.05, 0.10, 0.20, 0.30, 0.50]
  const UseTimestep := true
  const Timesteps := 3

  /** `prepare_psi(qc, q)` */
  function PreparePsiGates(q: nat): seq<Gate> {
    [RY(Theta, q), RZ(Phi, q)]
  }

  method PreparePsi(qc: QuantumCircuit, q: nat)
    requires qc.Valid() && q < qc.numQubits
    modifies qc
    ensures qc.ops == old(qc.ops) + PreparePsiGates(q) && qc.Valid()
  {
    qc.Append(RY(Theta, q));
    qc.Append(RZ(Phi, q));
  }

  function Wait(useTimestep: bool, t: nat, block: seq<Gate>): seq<Gate> {
    if useTimestep then Repeat(block, t) else []
  }

  /** `teleportation_circuit()` with the timestep switch and count as parameters. */
  function TeleportationGates(useTimestep: bool, t: nat): seq<Gate> {
    PreparePsiGates(0)
    + [H(1), CX(1, 2)] + Wait(useTimestep, t, [Id(1), Id(2)])
    + [CX(0, 1), H(0)] + Wait(useTimestep, t, [Id(0), Id(1)])
    + [CX(1, 2), CZ(0, 2)] + Wait(useTimestep, t, [Id(2)])
  }

  lemma ThreeQubitBlocksFit()
    ensures AllFit([H(1), CX(1, 2)], 3, 0) && AllFit([CX(0, 1), H(0)], 3, 0) && AllFit([CX(1, 2), CZ(0, 2)], 3, 0)
    ensures AllFit([Id(1), Id(2)], 3, 0) && AllFit([Id(0), Id(1)], 3, 0) && AllFit([Id(2)], 3, 0)
  {
  }

  /** `teleportation_circuit()` */
  method TeleportationCircuit() returns (qc: QuantumCircuit)
    ensures fresh(qc) && qc.numQubits == 3 && qc.numClbits == 0 && qc.Valid()
    ensures qc.ops == TeleportationGates(UseTimestep, Timesteps)
  {
    qc := new QuantumCircuit(3, 0);
    ThreeQubitBlocksFit();
    PreparePsi(qc, 0);
    qc.AppendAll([H(1), CX(1, 2)]);
    if UseTimestep {
      qc.AppendRepeat([Id(1), Id(2)], Timesteps);
    }
    ghost var bell := qc.ops;
    assert bell == PreparePsiGates(0) + [H(1), CX(1, 2)] + Wait(UseTimestep, Timesteps, [Id(1), Id(2)]);
    qc.AppendAll([CX(0, 1), H(0)]);
    if UseTimestep {
      qc.AppendRepeat([Id(0), Id(1)], Timesteps);
    }
    ghost var measured := qc.ops;
    assert measured == bell + [CX(0, 1), H(0)] + Wait(UseTimestep, Timesteps, [Id(0), Id(1)]);
    qc.AppendAll([CX(1, 2), CZ(0, 2)]);
    if UseTimestep {
      qc.AppendRepeat([Id(2)], Timesteps);
    }
  }

  /** `reference_state()`'s circuit: |psi> prepared on q2 of a fresh 3-qubit register. */
  method ReferenceCircuit() returns (qc: QuantumCircuit)
    ensures fresh(qc) && qc.numQubits == 3 && qc.numClbits == 0 && qc.Valid()
    ensures qc.ops == PreparePsiGates(2)
  {
    qc := new QuantumCircuit(3, 0);
    PreparePsi(qc, 2);
  }

  /** The reference prepares q2 with the same two rotations, in the same order, that the circuit applies to q0. */
  lemma ReferenceMatchesInput(useTimestep: bool, t: nat)
    ensures |TeleportationGates(useTimestep, t)| >= 2
    ensures forall i :: 0 <= i < 2 ==>
      TeleportationGates(useTimestep, t)[i].q == 0 && PreparePsiGates(2)[i].q == 2 &&
      TeleportationGates(useTimestep, t)[i].angle == PreparePsiGates(2)[i].angle &&
      (TeleportationGates(useTimestep, t)[i].RY? <==> PreparePsiGates(2)[i].RY?)
  {
  }

  /** The instruction list with every identity gate dropped. */
  function WithoutIds(ops: seq<Gate>): (r: seq<Gate>)
    ensures |r| <= |ops|
  {
    if ops == [] then []
    else (if ops[0].Id? then [] else [ops[0]]) + WithoutIds(ops[1..])
  }

  lemma {:induction false} WithoutIdsAppend(a: seq<Gate>, b: seq<Gate>)
    ensures WithoutIds(a + b) == WithoutIds(a) + WithoutIds(b)
  {
    if a == [] {
      assert a + b == b;
    } else {
      assert (a + b)[1..] == a[1..] + b;
      WithoutIdsAppend(a[1..], b);
    }
  }

  lemma {:induction false} WithoutIdsOfWait(useTimestep: bool, t: nat, block: seq<Gate>)
    requires forall i :: 0 <= i < |block| ==> block[i].Id?
    ensures WithoutIds(Wait(useTimestep, t, block)) == []
  {
    if useTimestep && t > 0 {
      WithoutIdsOfWait(useTimestep, t - 1, block);
      WithoutIdsAppend(Repeat(block, t - 1), block);
      WithoutIdsOfIds(block);
    }
  }

  lemma {:induction false} WithoutIdsOfIds(block: seq<Gate>)
    requires forall i :: 0 <= i < |block| ==> block[i].Id?
    ensures WithoutIds(block) == []
  {
    if block != [] {
      WithoutIdsOfIds(block[1..]);
    }
  }

  lemma WithoutIdsOfTwo(a: Gate, b: Gate)
    requires !a.Id? && !b.Id?
    ensures WithoutIds([a, b]) == [a, b]
  {
    assert [a, b][1..] == [b];
    assert [b][1..] == [];
  }

  /** Three stages with a wait after each, as `teleportation_circuit()` lays them out. */
  function Staged(s1: seq<Gate>, w1: seq<Gate>, s2: seq<Gate>, w2: seq<Gate>, s3: seq<Gate>, w3: seq<Gate>): seq<Gate> {
    s1 + w1 + s2 + w2 + s3 + w3
  }

  lemma StagedWithoutIds(s1: seq<Gate>, w1: seq<Gate>, s2: seq<Gate>, w2: seq<Gate>, s3: seq<Gate>, w3: seq<Gate>)
    ensures WithoutIds(Staged(s1, w1, s2, w2, s3, w3)) ==
      WithoutIds(s1) + WithoutIds(w1) + WithoutIds(s2) + WithoutIds(w2) + WithoutIds(s3) + WithoutIds(w3)
  {
    WithoutIdsAppend(s1 + w1 + s2 + w2 + s3, w3);
    WithoutIdsAppend(s1 + w1 + s2 + w2, s3);
    WithoutIdsAppend(s1 + w1 + s2, w2);
    WithoutIdsAppend(s1 + w1, s2);
    WithoutIdsAppend(s1, w1);
  }

  lemma StagedCount(s1: seq<Gate>, w1: seq<Gate>, s2: seq<Gate>, w2: seq<Gate>, s3: seq<Gate>, w3: seq<Gate>, g: Gate)
    ensures Count(Staged(s1, w1, s2, w2, s3, w3), g) ==
      Count(s1, g) + Count(w1, g) + Count(s2, g) + Count(w2, g) + Count(s3, g) + Count(w3, g)
  {
    CountAppend(s1 + w1 + s2 + w2 + s3, w3, g);
    CountAppend(s1 + w1 + s2 + w2, s3, g);
    CountAppend(s1 + w1 + s2, w2, g);
    CountAppend(s1 + w1, s2, g);
    CountAppend(s1, w1, g);
  }

  lemma TeleportationIsStaged(useTimestep: bool, t: nat)
    ensures TeleportationGates(useTimestep, t) == Staged(
      PreparePsiGates(0) + [H(1), CX(1, 2)], Wait(useTimestep, t, [Id(1), Id(2)]),
      [CX(0, 1), H(0)], Wait(useTimestep, t, [Id(0), Id(1)]),
      [CX(1, 2), CZ(0, 2)], Wait(useTimestep, t, [Id(2)]))
  {
  }

  /**
   * The timesteps only insert identity gates: dropping them gives back the
   * circuit without timesteps, whose order is ry, rz on q0; H(1), CX(1, 2);
   * CX(0, 1), H(0); and the corrections CX(1, 2), CZ(0, 2).
   */
  lemma TimestepsOnlyAddIds(useTimestep: bool, t: nat)
    ensures TeleportationGates(false, t) ==
      [RY(Theta, 0), RZ(Phi, 0), H(1), CX(1, 2), CX(0, 1), H(0), CX(1, 2), CZ(0, 2)]
    ensures WithoutIds(TeleportationGates(useTimestep, t)) == TeleportationGates(false, t)
  {
    var s1 := PreparePsiGates(0) + [H(1), CX(1, 2)];
    TeleportationIsStaged(useTimestep, t);
    StagedWithoutIds(s1, Wait(useTimestep, t, [Id(1), Id(2)]), [CX(0, 1), H(0)],
      Wait(useTimestep, t, [Id(0), Id(1)]), [CX(1, 2), CZ(0, 2)], Wait(useTimestep, t, [Id(2)]));
    WithoutIdsOfWait(useTimestep, t, [Id(1), Id(2)]);
    WithoutIdsOfWait(useTimestep, t, [Id(0), Id(1)]);
    WithoutIdsOfWait(useTimestep, t, [Id(2)]);
    WithoutIdsAppend(PreparePsiGates(0), [H(1), CX(1, 2)]);
    WithoutIdsOfTwo(RY(Theta, 0), RZ(Phi, 0));
    WithoutIdsOfTwo(H(1), CX(1, 2));
    WithoutIdsOfTwo(CX(0, 1), H(0));
    WithoutIdsOfTwo(CX(1, 2), CZ(0, 2));
  }

  /** Identity gates of one kind in a wait: `t` per occurrence in the block. */
  lemma WaitCount(useTimestep: bool, t: nat, block: seq<Gate>, g: Gate)
    ensures Count(Wait(useTimestep, t, block), g) == if useTimestep then t * Count(block, g) else 0
  {
    if useTimestep {
      CountRepeat(block, t, g);
    }
  }

  /** Identity gates per qubit: T on q0, 2T on q1, 2T on q2, so 5T in all; none without timesteps. */
  lemma TimestepIdCount(useTimestep: bool, t: nat)
    ensures var k := if useTimestep then t else 0;
      var ops := TeleportationGates(useTimestep, t);
      Count(ops, Id(0)) == k && Count(ops, Id(1)) == 2 * k && Count(ops, Id(2)) == 2 * k
  {
    TeleportationIsStaged(useTimestep, t);
    forall g | g == Id(0) || g == Id(1) || g == Id(2)
      ensures Count(TeleportationGates(useTimestep, t), g) ==
        (if useTimestep then t else 0) * (Count([Id(1), Id(2)], g) + Count([Id(0), Id(1)], g) + Count([Id(2)], g))
    {
      var s1 := PreparePsiGates(0) + [H(1), CX(1, 2)];
      StagedCount(s1, Wait(useTimestep, t, [Id(1), Id(2)]), [CX(0, 1), H(0)],
        Wait(useTimestep, t, [Id(0), Id(1)]), [CX(1, 2), CZ(0, 2)], Wait(useTimestep, t, [Id(2)]), g);
      CountAppend(PreparePsiGates(0), [H(1), CX(1, 2)], g);
      CountPair(RY(Theta, 0), RZ(Phi, 0), g);
      CountPair(H(1), CX(1, 2), g);
      CountPair(CX(0, 1), H(0), g);
      CountPair(CX(1, 2), CZ(0, 2), g);
      WaitCount(useTimestep, t, [Id(1), Id(2)], g);
      WaitCount(useTimestep, t, [Id(0), Id(1)], g);
      WaitCount(useTimestep, t, [Id(2)], g);
    }
    CountPair(Id(1), Id(2), Id(0));
    CountPair(Id(0), Id(1), Id(0));
    CountPair(Id(1), Id(2), Id(1));
    CountPair(Id(0), Id(1), Id(1));
    CountPair(Id(1), Id(2), Id(2));
    CountPair(Id(0), Id(1), Id(2));
    assert [Id(2)][1..] == [];
  }

  /**
   * The fidelity sweep: one phase-damping and one depolarizing fidelity per
   * noise level, in order.  `fidelity` stands for the density-matrix
   * simulation and the comparison with the reference state.
   */
  method FidelitySweep(levels: seq<real>, fidelity: (seq<Gate>, NoiseConfig) -> real)
    returns (phaseF: seq<real>, depF: seq<real>)
    ensures |phaseF| == |levels| && |depF| == |levels|
    ensures forall i :: 0 <= i < |levels| ==>
      TeleportationNoise("phase", levels[i]).Success? &&
      TeleportationNoise("depolarizing", levels[i]).Success? &&
      phaseF[i] == fidelity(TeleportationGates(UseTimestep, Timesteps), TeleportationNoise("phase", levels[i]).value) &&
      depF[i] == fidelity(TeleportationGates(UseTimestep, Timesteps), TeleportationNoise("depolarizing", levels[i]).value)
  {
    phaseF, depF := [], [];
    for i := 0 to |levels|
      invariant |phaseF| == i && |depF| == i
      invariant forall j :: 0 <= j < i ==>
        TeleportationNoise("phase", levels[j]).Success? &&
        TeleportationNoise("depolarizing", levels[j]).Success? &&
        phaseF[j] == fidelity(TeleportationGates(UseTimestep, Timesteps), TeleportationNoise("phase", levels[j]).value) &&
        depF[j] == fidelity(TeleportationGates(UseTimestep, Timesteps), TeleportationNoise("depolarizing", levels[j]).value)
    {
      TeleportationNoiseShape("phase", levels[i]);
      TeleportationNoiseShape("depolarizing", levels[i]);
      var qc := TeleportationCircuit();
      var fp := fidelity(qc.ops, TeleportationNoise("phase", levels[i]).value);
      var fd := fidelity(qc.ops, TeleportationNoise("depolarizing", levels[i]).value);
      phaseF := phaseF + [fp];
      depF := depF + [fd];
    }
  }
}
