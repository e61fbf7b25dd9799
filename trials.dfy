/**
 * The Deutsch-Jozsa classification experiments on two inputs: every
 * trial draws a label and a random truth table of that kind, builds the
 * oracle and the Deutsch-Jozsa circuit around it, runs it, classifies the
 * counts and scores the verdict against the label.  The accuracy of a
 * block of trials is `correct / trials`; the sweeps evaluate one block per
 * noise configuration.
 *
 * Random draws and the simulator are parameters.  Trials are numbered
 * through the whole run: trial t uses `draw(t)` and the t-th simulator
 * call, so distinct blocks of trials see independent draws and
 * independent shot noise.  The circuit a trial runs is a function of its
 * table alone, `DeutschJozsaGates(OracleGates(table))`, so the simulator
 * is indexed by the table: `run(t, noise, shots, table)` stands for the
 * counts of the t-th run of that circuit under `noise`.
 */
module Trials {
  import opened Wrappers
  import opened Circuits
  import opened Counts
  import opened Classify
  import opened TruthTables
  import opened DeutschJozsa2
  import opened Noise
  import opened Metrics

  /**
   * One trial's random draws: the label from `random.choice`, then `v`
   * from `random.choice([0, 1])` for a constant table or the pair `i, j`
   * from `random.sample(range(4), 2)` for a balanced one.
   */
  datatype Draw = Draw(kind: Label, v: int, i: nat, j: nat)

  /** The ranges the random calls draw from. */
  predicate ValidDraw(d: Draw) {
    (d.v == 0 || d.v == 1) && d.i < 4 && d.j < 4 && d.i != d.j
  }

  ghost predicate ValidDraws(draw: nat -> Draw) {
    forall t :: ValidDraw(draw(t))
  }

  /** Whether position k of the balanced table drawn by `d` holds a 1. */
  function OneAt(d: Draw, k: nat): int {
    if k == d.i || k == d.j then 1 else 0
  }

  /**
   * `random_constant_table() if kind == "CONSTANT" else random_balanced_table()`,
   * written out entry by entry; `TableHasDrawnKind` shows it is the table
   * `RandomConstantTable` or `RandomBalancedTable` builds.
   */
  function TableOf(d: Draw): seq<int> {
    if d.kind == Constant then [d.v, d.v, d.v, d.v] else [OneAt(d, 0), OneAt(d, 1), OneAt(d, 2), OneAt(d, 3)]
  }

  /**
   * The drawn table is the one the table generators build, so it is a 0/1
   * table of four entries, constant exactly for the label CONSTANT and
   * balanced exactly for BALANCED: the sanity assertion of the trial loop
   * always holds.
   */
  lemma TableHasDrawnKind(d: Draw)
    requires ValidDraw(d)
    ensures var t := TableOf(d);
      && t == (if d.kind == Constant then RandomConstantTable(d.v) else RandomBalancedTable(d.i, d.j))
      && |t| == 4 && (forall k :: 0 <= k < 4 ==> t[k] == 0 || t[k] == 1)
      && (IsConstant(t) <==> d.kind == Constant)
      && (IsBalanced(t) <==> d.kind == Balanced)
  {
    var t := TableOf(d);
    if d.kind == Constant {
      assert t == RandomConstantTable(d.v);
    } else {
      var b := RandomBalancedTable(d.i, d.j);
      assert forall k :: 0 <= k < 4 ==> t[k] == b[k];
    }
  }

  /** The simulator hands back counts that add up to the requested shots. */
  ghost predicate Honest(run: (nat, NoiseConfig, nat, seq<int>) -> Counts) {
    forall t, noise, shots, table :: Total(run(t, noise, shots, table)) == shots
  }

  /** `classify_from_counts` of the noiseless classifier: CONSTANT iff all 1024 shots gave "00". */
  function ExactRule(c: Counts): (l: Label)
    ensures l == Constant <==> Get(c, "00") == 1024
  {
    ClassifyExact(c, "00", 1024)
  }

  /** When the 1024 shots are all accounted for, CONSTANT iff no shot landed on any key but "00". */
  lemma ExactRuleMeaning(c: Counts)
    requires Distinct(c) && Total(c) == 1024
    ensures ExactRule(c) == Constant <==> forall i :: 0 <= i < |c| && c[i].key != "00" ==> c[i].count == 0
  {
    ClassifyExactMeaning(c, "00", 1024);
  }

  /**
   * `classify_majority`: CONSTANT iff the most frequent outcome is "00".
   * Python's `max` raises on empty counts; here empty counts read as
   * BALANCED, a case an honest simulator never produces (`HonestMajority`).
   */
  function MajorityRule(c: Counts): Label {
    if c == [] then Balanced else ClassifyMajority(c, "00").value
  }

  /**
   * Counts that add up to a positive number of shots are not empty, so on
   * them the majority rule is exactly the vote of `ClassifyMajority`.
   */
  lemma HonestMajority(run: (nat, NoiseConfig, nat, seq<int>) -> Counts, t: nat, noise: NoiseConfig,
                       shots: nat, table: seq<int>)
    requires Honest(run) && shots > 0
    ensures run(t, noise, shots, table) != []
    ensures ClassifyMajority(run(t, noise, shots, table), "00") == Success(MajorityRule(run(t, noise, shots, table)))
  {
    assert Total(run(t, noise, shots, table)) == shots;
  }

  /** Whether trial t's verdict under `classify` matches its label. */
  predicate TrialRight(classify: Counts -> Label, noise: NoiseConfig, shots: nat, draw: nat -> Draw,
                       run: (nat, NoiseConfig, nat, seq<int>) -> Counts, t: nat)
  {
    classify(run(t, noise, shots, TableOf(draw(t)))) == draw(t).kind
  }

  /** The verdicts of the trials, as one predicate over the trial number. */
  function Verdicts(classify: Counts -> Label, noise: NoiseConfig, shots: nat, draw: nat -> Draw,
                    run: (nat, NoiseConfig, nat, seq<int>) -> Counts): nat -> bool
  {
    (t: nat) => TrialRight(classify, noise, shots, draw, run, t)
  }

  /** The number of right verdicts among the n trials starting at trial `base`. */
  function Hits(right: nat -> bool, base: nat, n: nat): (k: nat)
    ensures k <= n
  {
    if n == 0 then 0 else Hits(right, base, n - 1) + (if right(base + n - 1) then 1 else 0)
  }

  /** The first trial number of block k when blocks of `size` trials are numbered from 0. */
  function BlockStart(k: nat, size: nat): nat {
    k * size
  }

  /** `correct / trials` for the block of trials starting at `base`; it lies in [0, 1]. */
  function Accuracy(classify: Counts -> Label, noise: NoiseConfig, shots: nat, trials: nat, draw: nat -> Draw,
                    run: (nat, NoiseConfig, nat, seq<int>) -> Counts, base: nat): (r: real)
    requires trials > 0
    ensures 0.0 <= r <= 1.0
  {
    var k := Hits(Verdicts(classify, noise, shots, draw, run), base, trials);
    FractionBounds(k, trials);
    k as real / trials as real
  }

  /** Every one of the n trials is right exactly when the count of right ones is n. */
  lemma {:induction false} AllHitsIff(right: nat -> bool, base: nat, n: nat)
    ensures Hits(right, base, n) == n <==> forall t :: base <= t < base + n ==> right(t)
  {
    if n > 0 {
      AllHitsIff(right, base, n - 1);
    }
  }

  /** No trial is right exactly when the count of right ones is 0. */
  lemma {:induction false} NoHitsIff(right: nat -> bool, base: nat, n: nat)
    ensures Hits(right, base, n) == 0 <==> forall t :: base <= t < base + n ==> !right(t)
  {
    if n > 0 {
      NoHitsIff(right, base, n - 1);
    }
  }

  /**
   * The trial loop: draw a label and a table, check the table has the
   * drawn kind, run the Deutsch-Jozsa circuit, classify, and count the
   * right verdicts; the result is `correct / trials`.
   */
  method EvaluateAccuracy(classify: Counts -> Label, noise: NoiseConfig, shots: nat, trials: nat, draw: nat -> Draw,
                          run: (nat, NoiseConfig, nat, seq<int>) -> Counts, base: nat)
    returns (accuracy: real)
    requires trials > 0 && ValidDraws(draw)
    ensures accuracy == Accuracy(classify, noise, shots, trials, draw, run, base)
    ensures 0.0 <= accuracy <= 1.0
  {
    var correct: nat := 0;
    ghost var verdicts := Verdicts(classify, noise, shots, draw, run);
    for t := 0 to trials
      invariant correct == Hits(verdicts, base, t)
    {
      var d := draw(base + t);
      var table := TableOf(d);
      TableHasDrawnKind(d);
      assert if d.kind == Constant then IsConstant(table) else IsBalanced(table);
      var counts := run(base + t, noise, shots, table);
      var pred := classify(counts);
      var right := pred == d.kind;
      assert verdicts(base + t) == right;
      assert Hits(verdicts, base, t + 1) == correct + (if right then 1 else 0);
      if right {
        correct := correct + 1;
      }
    }
    accuracy := correct as real / trials as real;
  }

  // ---------------------------------------------------------------
  // The noiseless classifier of random oracles
  // ---------------------------------------------------------------

  const ClassifierShots: nat := 1024
  const ClassifierTrials: nat := 20

  /** Twenty noiseless trials, 1024 shots each, classified by the ideal rule. */
  method RandomOraclesClassifier(draw: nat -> Draw, run: (nat, NoiseConfig, nat, seq<int>) -> Counts)
    returns (accuracy: real)
    requires ValidDraws(draw)
    ensures accuracy == Accuracy(ExactRule, Ideal, ClassifierShots, ClassifierTrials, draw, run, 0)
    ensures 0.0 <= accuracy <= 1.0
  {
    accuracy := EvaluateAccuracy(ExactRule, Ideal, ClassifierShots, ClassifierTrials, draw, run, 0);
  }

  /** A block scores 1 exactly when every one of its trials is classified right. */
  lemma AccuracyOneIff(classify: Counts -> Label, noise: NoiseConfig, shots: nat, trials: nat, draw: nat -> Draw,
                       run: (nat, NoiseConfig, nat, seq<int>) -> Counts, base: nat)
    requires trials > 0
    ensures Accuracy(classify, noise, shots, trials, draw, run, base) == 1.0 <==>
      forall t :: base <= t < base + trials ==> TrialRight(classify, noise, shots, draw, run, t)
  {
    var verdicts := Verdicts(classify, noise, shots, draw, run);
    AllHitsIff(verdicts, base, trials);
    assert forall t :: verdicts(t) == TrialRight(classify, noise, shots, draw, run, t);
  }

  /** A block scores 0 exactly when every one of its trials is classified wrong. */
  lemma AccuracyZeroIff(classify: Counts -> Label, noise: NoiseConfig, shots: nat, trials: nat, draw: nat -> Draw,
                        run: (nat, NoiseConfig, nat, seq<int>) -> Counts, base: nat)
    requires trials > 0
    ensures Accuracy(classify, noise, shots, trials, draw, run, base) == 0.0 <==>
      forall t :: base <= t < base + trials ==> !TrialRight(classify, noise, shots, draw, run, t)
  {
    var verdicts := Verdicts(classify, noise, shots, draw, run);
    NoHitsIff(verdicts, base, trials);
    assert forall t :: verdicts(t) == TrialRight(classify, noise, shots, draw, run, t);
  }

  /**
   * The expected outcome of the noiseless classifier: when every run puts
   * all shots on "00" exactly for a constant oracle, as Deutsch-Jozsa
   * promises, the accuracy is 1.
   */
  lemma IdealClassifierIsExact(draw: nat -> Draw, run: (nat, NoiseConfig, nat, seq<int>) -> Counts)
    requires forall t :: 0 <= t < ClassifierTrials ==>
      (Get(run(t, Ideal, ClassifierShots, TableOf(draw(t))), "00") == ClassifierShots <==> draw(t).kind == Constant)
    ensures Accuracy(ExactRule, Ideal, ClassifierShots, ClassifierTrials, draw, run, 0) == 1.0
  {
    forall t | 0 <= t < ClassifierTrials
      ensures TrialRight(ExactRule, Ideal, ClassifierShots, draw, run, t)
    {
    }
    AccuracyOneIff(ExactRule, Ideal, ClassifierShots, ClassifierTrials, draw, run, 0);
  }

  // ---------------------------------------------------------------
  // Sweeps over gate and readout noise, majority rule
  // ---------------------------------------------------------------

  /** `build_noise_model(p_gate, p_readout)` for each gate level of a sweep, in order. */
  function SweepConfigs(gates: seq<real>, pReadout: real): (noises: seq<NoiseConfig>)
    ensures |noises| == |gates|
    ensures forall g :: 0 <= g < |gates| ==> noises[g] == GateAndReadoutNoise(gates[g], pReadout)
  {
    seq(|gates|, g requires 0 <= g < |gates| => GateAndReadoutNoise(gates[g], pReadout))
  }

  /**
   * The g-th model of a sweep puts a depolarizing error on x, h, z and cx
   * exactly when the g-th gate level is positive, and carries the readout
   * matrix of the sweep's readout level exactly when that level is positive.
   */
  lemma SweepConfigsShape(gates: seq<real>, pReadout: real, g: nat)
    requires g < |gates|
    ensures var c := SweepConfigs(gates, pReadout)[g];
      && (gates[g] > 0.0 ==>
            && c.errors.Keys == {"x", "h", "z", "cx"}
            && c.errors["x"] == c.errors["h"] == c.errors["z"] == [Depolarizing(gates[g], 1)]
            && c.errors["cx"] == [Depolarizing(gates[g], 2)])
      && (gates[g] <= 0.0 ==> c.errors == map[])
      && (c.readout.Some? <==> pReadout > 0.0)
      && (c.readout.Some? ==> c.readout.value == ReadoutMatrix(pReadout))
  {
    GateAndReadoutNoiseShape(gates[g], pReadout);
  }

  /**
   * `row` holds, for each noise model in turn, the majority-rule accuracy
   * of the next block of `trials` trials, the first block starting at
   * trial `base`.  Stated element by element in `RowIsAt`.
   */
  ghost predicate RowIs(classify: Counts -> Label, row: seq<real>, noises: seq<NoiseConfig>, shots: nat, trials: nat,
                        draw: nat -> Draw, run: (nat, NoiseConfig, nat, seq<int>) -> Counts, base: nat)
    requires trials > 0
    decreases |row|
  {
    && |row| == |noises|
    && (row != [] ==>
          && RowIs(classify, row[..|row| - 1], noises[..|row| - 1], shots, trials, draw, run, base)
          && row[|row| - 1] == Accuracy(classify, noises[|row| - 1], shots, trials, draw, run, base + BlockStart(|row| - 1, trials)))
  }

  /**
   * Entry g of a row is the accuracy of the g-th block of trials under the
   * g-th noise model, and so lies in [0, 1].
   */
  lemma {:induction false} RowIsAt(classify: Counts -> Label, row: seq<real>, noises: seq<NoiseConfig>, shots: nat, trials: nat,
                                   draw: nat -> Draw, run: (nat, NoiseConfig, nat, seq<int>) -> Counts, base: nat)
    requires trials > 0
    requires RowIs(classify, row, noises, shots, trials, draw, run, base)
    ensures |row| == |noises|
    ensures forall g :: 0 <= g < |row| ==>
      && row[g] == Accuracy(classify, noises[g], shots, trials, draw, run, base + BlockStart(g, trials))
      && 0.0 <= row[g] <= 1.0
  {
    if row != [] {
      var n := |row| - 1;
      RowIsAt(classify, row[..n], noises[..n], shots, trials, draw, run, base);
      forall g | 0 <= g < |row|
        ensures row[g] == Accuracy(classify, noises[g], shots, trials, draw, run, base + BlockStart(g, trials))
        ensures 0.0 <= row[g] <= 1.0
      {
        if g < n {
          assert row[..n][g] == row[g] && noises[..n][g] == noises[g];
        }
      }
    }
  }

  /** Appending the accuracy of block g under noise model g to a row for the first g models extends it by one. */
  lemma RowIsSnoc(classify: Counts -> Label, row: seq<real>, noises: seq<NoiseConfig>, g: nat, acc: real, shots: nat, trials: nat,
                  draw: nat -> Draw, run: (nat, NoiseConfig, nat, seq<int>) -> Counts, base: nat)
    requires trials > 0 && g < |noises|
    requires RowIs(classify, row, noises[..g], shots, trials, draw, run, base)
    requires acc == Accuracy(classify, noises[g], shots, trials, draw, run, base + BlockStart(g, trials))
    ensures RowIs(classify, row + [acc], noises[..g + 1], shots, trials, draw, run, base)
  {
    assert (row + [acc])[..g] == row;
    assert noises[..g + 1][..g] == noises[..g];
    assert noises[..g + 1][g] == noises[g];
  }

  /** The innermost sweep: for each noise model in turn one block of trials, one accuracy per model, in order. */
  method GateSweep(classify: Counts -> Label, noises: seq<NoiseConfig>, shots: nat, trials: nat, draw: nat -> Draw,
                   run: (nat, NoiseConfig, nat, seq<int>) -> Counts, base: nat)
    returns (row: seq<real>)
    requires trials > 0 && ValidDraws(draw)
    ensures RowIs(classify, row, noises, shots, trials, draw, run, base)
  {
    row := [];
    for g := 0 to |noises|
      invariant |row| == g
      invariant RowIs(classify, row, noises[..g], shots, trials, draw, run, base)
    {
      var acc := EvaluateAccuracy(classify, noises[g], shots, trials, draw, run, base + BlockStart(g, trials));
      RowIsSnoc(classify, row, noises, g, acc, shots, trials, draw, run, base);
      row := row + [acc];
    }
    assert noises[..|noises|] == noises;
  }

  /**
   * `plane[r]` is the gate sweep at the r-th readout level; the sweeps
   * take consecutive blocks of trials, starting at trial `base`.
   */
  ghost predicate PlaneIs(classify: Counts -> Label, plane: seq<seq<real>>, gates: seq<real>, readouts: seq<real>, shots: nat, trials: nat,
                          draw: nat -> Draw, run: (nat, NoiseConfig, nat, seq<int>) -> Counts, base: nat)
    requires trials > 0
  {
    && |plane| == |readouts|
    && forall r :: 0 <= r < |plane| ==>
         && |plane[r]| == |gates|
         && RowIs(classify, plane[r], SweepConfigs(gates, readouts[r]), shots, trials, draw, run, base + BlockStart(r, BlockStart(|gates|, trials)))
  }

  /** `for p_readout in readouts: for p_gate in gates: ...`, one block of trials per pair. */
  method ReadoutSweep(classify: Counts -> Label, gates: seq<real>, readouts: seq<real>, shots: nat, trials: nat, draw: nat -> Draw,
                      run: (nat, NoiseConfig, nat, seq<int>) -> Counts, base: nat)
    returns (plane: seq<seq<real>>)
    requires trials > 0 && ValidDraws(draw)
    ensures PlaneIs(classify, plane, gates, readouts, shots, trials, draw, run, base)
  {
    plane := [];
    for r := 0 to |readouts|
      invariant |plane| == r
      invariant forall r' :: 0 <= r' < r ==>
        && |plane[r']| == |gates|
        && RowIs(classify, plane[r'], SweepConfigs(gates, readouts[r']), shots, trials, draw, run, base + BlockStart(r', BlockStart(|gates|, trials)))
    {
      var row := GateSweep(classify, SweepConfigs(gates, readouts[r]), shots, trials, draw, run, base + BlockStart(r, BlockStart(|gates|, trials)));
      plane := plane + [row];
    }
  }

  const RobustnessShots: nat := 1024
  const TrialsPerLevel: nat := 30
  const NoiseLevels: seq<real> := [0.0, 0.001, 0.005, 0.01, 0.02, 0.05]
  const ReadoutLevels: seq<real> := [0.0, 0.01]

  /** The robustness sweep: for each readout level, one accuracy per gate level (2 x 6 blocks of 30 trials). */
  method NoiseRobustness(draw: nat -> Draw, run: (nat, NoiseConfig, nat, seq<int>) -> Counts)
    returns (table: seq<seq<real>>)
    requires ValidDraws(draw)
    ensures |table| == 2 && forall a :: 0 <= a < 2 ==> |table[a]| == 6
    ensures PlaneIs(MajorityRule, table, NoiseLevels, ReadoutLevels, RobustnessShots, TrialsPerLevel, draw, run, 0)
  {
    table := ReadoutSweep(MajorityRule, NoiseLevels, ReadoutLevels, RobustnessShots, TrialsPerLevel, draw, run, 0);
  }

  /** The number of trials a readout-by-gate sweep takes: one block per pair of levels. */
  function PlaneTrials(gates: seq<real>, readouts: seq<real>, trials: nat): nat {
    BlockStart(|readouts|, BlockStart(|gates|, trials))
  }

  /**
   * `run_grid`: for each shot count the readout-by-gate sweep, on
   * consecutive blocks of `trials` trials, giving
   * |shotsList| x |readoutList| x |gateList| accuracies.
   */
  method RunGrid(trials: nat, shotsList: seq<nat>, gateList: seq<real>, readoutList: seq<real>,
                 draw: nat -> Draw, run: (nat, NoiseConfig, nat, seq<int>) -> Counts)
    returns (grid: seq<seq<seq<real>>>)
    requires trials > 0
    requires ValidDraws(draw)
    ensures |grid| == |shotsList|
    ensures forall s :: 0 <= s < |grid| ==>
      PlaneIs(MajorityRule, grid[s], gateList, readoutList, shotsList[s], trials, draw, run, BlockStart(s, PlaneTrials(gateList, readoutList, trials)))
  {
    grid := [];
    for s := 0 to |shotsList|
      invariant |grid| == s
      invariant forall s' :: 0 <= s' < s ==>
        PlaneIs(MajorityRule, grid[s'], gateList, readoutList, shotsList[s'], trials, draw, run, BlockStart(s', PlaneTrials(gateList, readoutList, trials)))
    {
      var plane := ReadoutSweep(MajorityRule, gateList, readoutList, shotsList[s], trials, draw, run,
                                BlockStart(s, PlaneTrials(gateList, readoutList, trials)));
      grid := grid + [plane];
    }
  }

  const StressTrials: nat := 40
  const StressShots: seq<nat> := [64, 128, 256]
  const StressGateLevels: seq<real> := [0.0, 0.05, 0.1, 0.2, 0.3]
  const StressReadoutLevels: seq<real> := [0.0, 0.05, 0.1]

  /** The stress test: `run_grid` on its knobs, 3 x 3 x 5 blocks of 40 trials. */
  method StressTest(draw: nat -> Draw, run: (nat, NoiseConfig, nat, seq<int>) -> Counts)
    returns (grid: seq<seq<seq<real>>>)
    requires ValidDraws(draw)
    ensures |grid| == 3 && forall s :: 0 <= s < 3 ==> |grid[s]| == 3 && forall r :: 0 <= r < 3 ==> |grid[s][r]| == 5
    ensures forall s :: 0 <= s < 3 ==>
      PlaneIs(MajorityRule, grid[s], StressGateLevels, StressReadoutLevels, StressShots[s], StressTrials, draw, run, BlockStart(s, 600))
  {
    grid := RunGrid(StressTrials, StressShots, StressGateLevels, StressReadoutLevels, draw, run);
  }

  const CurveShots: nat := 128
  const CurveTrials: nat := 80
  const CurveReadout: real := 0.05
  const CurveGateLevels: seq<real> :=
    [0.0, 0.05, 0.1, 0.12, 0.14, 0.16, 0.18, 0.2, 0.22, 0.24, 0.26, 0.28, 0.3]

  /** The accuracy curve: `accuracies` holds one entry per gate level, in order. */
  method AccuracyCurve(draw: nat -> Draw, run: (nat, NoiseConfig, nat, seq<int>) -> Counts)
    returns (accuracies: seq<real>)
    requires ValidDraws(draw)
    ensures |accuracies| == |CurveGateLevels| == 13
    ensures RowIs(MajorityRule, accuracies, SweepConfigs(CurveGateLevels, CurveReadout), CurveShots, CurveTrials, draw, run, 0)
  {
    accuracies := GateSweep(MajorityRule, SweepConfigs(CurveGateLevels, CurveReadout), CurveShots, CurveTrials, draw, run, 0);
  }

  /**
   * The evaluator the threshold searches consult: the n-th evaluation at
   * gate noise p runs the n-th block of `trials` trials under
   * `build_noise_model(p, pReadout)`.  Every score it gives lies in [0, 1].
   */
  function Evaluator(pReadout: real, shots: nat, trials: nat, draw: nat -> Draw,
                     run: (nat, NoiseConfig, nat, seq<int>) -> Counts): (eval: (nat, real) -> real)
    requires trials > 0
    ensures forall n, p :: 0.0 <= eval(n, p) <= 1.0
  {
    (n: nat, p: real) => Accuracy(MajorityRule, GateAndReadoutNoise(p, pReadout), shots, trials, draw, run, BlockStart(n, trials))
  }
}
