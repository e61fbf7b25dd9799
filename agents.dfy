/**
 * The two small decision rules of the agent experiments: pick the fewest
 * shots that reach a target accuracy, and pick the measurement basis with
 * the higher Bell correlation.
 */
module Agents {
  import opened Wrappers
  import opened Counts
  import opened Metrics

  const TargetAccuracy: real := 0.95
  const ShotsCandidates: seq<nat> := [64, 128, 256, 512, 1024]

  /** The accuracy reported for `shots` shots; `run` stands for the simulator. */
  function AccuracyAt(run: nat -> Counts, shots: nat): real
    requires shots > 0
  {
    CorrRate(run(shots), shots)
  }

  /**
   * The shots loop: evaluate the candidates in order and stop at the first
   * whose accuracy reaches the target.  `evaluated` is how many candidates
   * were run.  On ascending candidates the first hit is the smallest, and
   * since no candidate is 0 the report is a success exactly when one was
   * chosen.
   */
  method ChooseShots(candidates: seq<nat>, target: real, run: nat -> Counts)
    returns (chosen: Option<nat>, evaluated: nat)
    requires forall i :: 0 <= i < |candidates| ==> candidates[i] > 0
    ensures evaluated <= |candidates|
    ensures chosen.None? <==> forall i :: 0 <= i < |candidates| ==> AccuracyAt(run, candidates[i]) < target
    ensures chosen.None? ==> evaluated == |candidates|
    ensures chosen.Some? ==> 0 < evaluated && chosen.value == candidates[evaluated - 1]
    ensures chosen.Some? ==> AccuracyAt(run, chosen.value) >= target
    ensures forall i :: 0 <= i < evaluated - 1 ==> AccuracyAt(run, candidates[i]) < target
    ensures chosen.Some? && (forall i, j :: 0 <= i < j < |candidates| ==> candidates[i] < candidates[j]) ==>
      forall i :: 0 <= i < |candidates| && AccuracyAt(run, candidates[i]) >= target ==> chosen.value <= candidates[i]
    ensures ReportsSuccess(chosen) <==> chosen.Some?
  {
    chosen := None;
    evaluated := 0;
    for i := 0 to |candidates|
      invariant evaluated == i
      invariant forall j :: 0 <= j < i ==> AccuracyAt(run, candidates[j]) < target
    {
      var shots := candidates[i];
      var acc := CorrRate(run(shots), shots);
      evaluated := i + 1;
      if acc >= target {
        chosen := Some(shots);
        return;
      }
    }
  }

  /** `if chosen:` — Python's truth test, which is false for None and for 0. */
  predicate ReportsSuccess(chosen: Option<nat>) {
    chosen.Some? && chosen.value != 0
  }

  datatype Basis = Z | X

  /** The correlation of basis `b`. */
  function CorrOf(b: Basis, corrZ: real, corrX: real): real {
    match b
    case Z => corrZ
    case X => corrX
  }

  /** `chosen = "Z" if corr_z >= corr_x else "X"` */
  function ChooseBasis(corrZ: real, corrX: real): (b: Basis)
    ensures b == Z <==> corrZ >= corrX
    ensures CorrOf(b, corrZ, corrX) >= corrZ && CorrOf(b, corrZ, corrX) >= corrX
  {
    if corrZ >= corrX then Z else X
  }
}
