# Quantum experiment scripts: oracles, circuit builders, noise tables, metrics and agent loops

This project models the logic the QuantumExperiments scripts write themselves, around the
calls they make into a quantum simulator:

- **Truth-table oracles and Deutsch / Deutsch-Jozsa decisions.** Tables are generated as
  constant or balanced. They are compiled into X / CX / CCX gate lists, which on basis states
  are reversible bit operations. Every fixed oracle of the Deutsch (n = 1) and Deutsch-Jozsa
  (n = 2, 3) scripts is proved to realise `U_f |x, y> = |x, y xor f(x)>` and to leave the
  inputs unchanged. The count classifiers are modelled: exact (`"00"` got every shot),
  majority vote (first maximum in dict order) and presence of `"0"`.
- **Circuit builders as gate lists.** Bell preparation and measurement, Phi+ with timestep
  `id` gates and X-basis variant, GHZ and W (rotations or `initialize`), teleportation with
  timesteps, and Grover with k rounds. A circuit is a `QuantumCircuit` class whose `ops`
  sequence the builders append to.
- **Noise-model tables.** A `NoiseModel` class holds a map from gate name to its list of
  errors, plus an optional 2x2 readout matrix. Every variant of `build_noise_model` is
  modelled, with the script's own `ValueError` on an unknown kind as a `Failure`; the
  parameter checks inside the noise library's constructors are not (see "Left out").
- **Count metrics and bit-string conventions.** Counts are an insertion-ordered dict with
  absent keys reading as 0. The model covers `prob`, `corr_rate`, the GHZ / W / Grover
  ratios, the c1c0 to c0c1 re-keying and `expected_c0c1`.
- **Agent loops.** The first-hit shots optimiser, the basis choice, the coarse-to-fine
  noise-threshold searches and the Grover stopping rule. The simulator is an evaluator
  function that is passed in.

Only X, CX and CCX get a meaning, as bit operations on `seq<bool>`. The other gates are
records. The HZH interference circuits also get a four-state model (|0>, |1>, |+>, |->) that
is enough to state their ideal outcomes. Simulator runs, fidelities and random draws are
function parameters. Noise levels and metrics are exact `real`s.

## Model

| member | source | states |
|---|---|---|
| TruthTables.SumOfFour | experiments/03_oracles/exp_05_random_oracles_classifier.py:31-32 | `sum(table)` of a four-entry table is the sum of its four entries |
| TruthTables.RandomConstantTable | experiments/03_oracles/exp_05_random_oracles_classifier.py:34-36 | the constant table `[v, v, v, v]` passes `is_constant` and fails `is_balanced` |
| TruthTables.RandomBalancedTable | experiments/03_oracles/exp_05_random_oracles_classifier.py:38-41 | the table has a 1 exactly at the two sampled positions and 0 elsewhere, so it passes `is_balanced` and fails `is_constant` |
| TruthTables.OracleFromTruthTable | experiments/03_oracles/exp_05_random_oracles_classifier.py:52-73 | the zip loop builds a fresh 3-qubit circuit whose gates are the compiled oracle |
| TruthTables.AppendBlock | experiments/03_oracles/exp_05_random_oracles_classifier.py:58-71 | one loop body appends the X-conjugated Toffoli block for its input and changes nothing else |
| TruthTables.UpToPastTable | experiments/03_oracles/exp_05_random_oracles_classifier.py:54 | `zip` stops at the shorter list, so inputs past the table add no gates |
| TruthTables.BlockClassical | experiments/03_oracles/exp_05_random_oracles_classifier.py:58-71 | a block uses only X and CCX on qubits 0..2 |
| TruthTables.RunMaybeX | experiments/03_oracles/exp_05_random_oracles_classifier.py:59-62 | a conditional X flips its qubit exactly when the condition holds |
| TruthTables.RunToffoli | experiments/03_oracles/exp_05_random_oracles_classifier.py:65 | `ccx(0, 1, 2)` flips y exactly when both inputs are 1 |
| TruthTables.BlockRuns | experiments/03_oracles/exp_05_random_oracles_classifier.py:58-71 | the block for input (x0, x1) flips y exactly on that input and restores q0, q1 |
| TruthTables.OracleUpToRuns | experiments/03_oracles/exp_05_random_oracles_classifier.py:54-71 | after the first k table entries, y is flipped exactly when the input index is below k and its entry fires |
| TruthTables.OracleRunsOn | experiments/03_oracles/exp_05_random_oracles_classifier.py:44-51 | on every basis state the oracle maps (x, y) to (x, y xor f(x)) |
| TruthTables.OracleRealises | experiments/03_oracles/exp_05_random_oracles_classifier.py:44-51 | the compiled oracle realises `U_f` for the table's function |
| TruthTables.OracleToffoliCount | experiments/03_oracles/exp_05_random_oracles_classifier.py:54-65 | there is exactly one CCX per table entry equal to 1 |
| TruthTables.ZeroTableEmptyOracle | experiments/03_oracles/exp_05_random_oracles_classifier.py:55-56 | an all-zero table compiles to the empty circuit |
| TruthTables.TableKinds | experiments/03_oracles/exp_05_random_oracles_classifier.py:28-32 | on 0/1 tables, `is_constant` and `is_balanced` agree with constancy and balance of the function the oracle realises |
| Reversible.Step | experiments/03_oracles/exp_05_random_oracles_classifier.py:58-71 | X, CX and CCX act on a basis state of the same width |
| Reversible.Run | experiments/03_oracles/exp_05_random_oracles_classifier.py:52-73 | running a gate list keeps the register width |
| Reversible.RunAppend | experiments/03_oracles/exp_05_random_oracles_classifier.py:52-73 | running `a + b` is running `a` and then `b` |
| Reversible.ClassicalOnAppend | experiments/03_oracles/exp_05_random_oracles_classifier.py:52-73 | a concatenation is classical exactly when both parts are |
| Reversible.CountTrueAppend | experiments/03_oracles/exp_05_random_oracles_classifier.py:31-32 | the number of 1s is additive over concatenation |
| Reversible.CountTrueOfEight | experiments/03_oracles/exp_07b_deutsch_jozsa_n3.py:19-47 | the number of 1s of an 8-entry table splits into its two halves |
| Reversible.Index | experiments/03_oracles/exp_05_random_oracles_classifier.py:26 | the input index `2*x0 + x1` of an n-bit input is below 2^n |
| Reversible.InputsPreserved | experiments/03_oracles/exp_05_random_oracles_classifier.py:44-51 | a circuit realising `U_f` leaves the input qubits unchanged |
| Reversible.ClassicalHasNoMeasure | experiments/03_oracles/exp_05_random_oracles_classifier.py:52-73 | an X / CX / CCX circuit contains no measurement |
| Classify.ClassifyExactMeaning | experiments/03_oracles/exp_05_random_oracles_classifier.py:99-107 | with counts summing to shots, CONSTANT exactly when every other outcome has count 0 |
| Classify.ArgMaxFrom | experiments/03_oracles/exp_06_noise_robustness.py:72 | the scan returns the first entry holding the maximal count |
| Classify.MostCommon | experiments/03_oracles/exp_06_noise_robustness.py:72 | `max(counts.items(), key=...)` fails exactly on empty counts; otherwise it returns the first maximal key |
| Classify.FirstMaxUnique | experiments/03_oracles/exp_06_noise_robustness.py:72 | there is only one first maximum, so the majority verdict is determined |
| Classify.ClassifyMajority | experiments/03_oracles/exp_07a_noise_stress_test.py:60-62 | the majority rule fails exactly on empty counts |
| Classify.MajorityWhenAhead | experiments/03_oracles/exp_06_noise_robustness.py:68-73 | if `"00"` strictly outnumbers every other key, the verdict is CONSTANT |
| Classify.MajorityWhenOutnumbered | experiments/03_oracles/exp_06_noise_robustness.py:68-73 | if any key has more counts than `"00"`, the verdict is BALANCED |
| Classify.MajorityTieGoesFirst | experiments/03_oracles/exp_06_noise_robustness.py:72 | of two tied maximal keys, the later one in dict order is never chosen |
| Classify.MajorityAgreesWhenExact | experiments/03_oracles/exp_06_noise_robustness.py:69-73 | whenever the exact rule says CONSTANT, the majority rule does too |
| Classify.ClassifyByPresenceMeaning | experiments/03_oracles/exp_03_deutsch_algorithm.py:53-56 | on counts with positive entries, CONSTANT exactly when the key `"0"` has a positive count |
| Counts.Get | experiments/03_oracles/exp_04_deutsch_jozsa_n2.py:87 | `counts.get(key, 0)` is 0 for an absent key |
| Counts.GetAt | experiments/03_oracles/exp_04_deutsch_jozsa_n2.py:87 | with distinct keys, looking up a present key returns its count |
| Counts.TotalSplit | experiments/03_oracles/exp_05_random_oracles_classifier.py:107 | the total is the key's count plus the counts of all other keys |
| Counts.AllShotsOn | experiments/03_oracles/exp_05_random_oracles_classifier.py:107 | a key holds the whole total exactly when all other counts are 0 |
| Counts.GetBelowTotal | experiments/04_noise/exp_02_interference_under_noise_hzh.py:65-66 | one key's count never exceeds the total |
| Counts.GetPairBelowTotal | experiments/04_noise/exp_03_entanglement_correlations_under_noise.py:56-59 | two distinct keys together never exceed the total |
| Counts.GetTripleBelowTotal | experiments/06_multipartite/exp_02_robustness_under_noise.py:39-40 | three distinct keys together never exceed the total |
| Counts.Put | experiments/02_two_qubits/exp_04_all_bell_states_measurement.py:77 | a dict store overwrites a present key in place and appends a new key at the end |
| Counts.PutGet | experiments/02_two_qubits/exp_04_all_bell_states_measurement.py:77 | after the store, the key reads the new value and every other key is unchanged |
| Counts.PutDistinct | experiments/02_two_qubits/exp_04_all_bell_states_measurement.py:77 | a store keeps the keys distinct |
| Counts.PutTotal | experiments/02_two_qubits/exp_04_all_bell_states_measurement.py:77 | a store changes the total by the new value minus the old one |
| Metrics.Prob | experiments/04_noise/exp_02_interference_under_noise_hzh.py:65-66 | `prob` is 0 for an absent key |
| Metrics.ProbBounds | experiments/04_noise/exp_02_interference_under_noise_hzh.py:65-66 | with counts summing to shots, `prob` lies in [0, 1] |
| Metrics.CorrRate | experiments/04_noise/exp_03_entanglement_correlations_under_noise.py:56-59 | `corr_rate` is 0 when neither `"00"` nor `"11"` occurs |
| Metrics.CorrRateAsSum | experiments/04_noise/exp_04_bell_correlations_Z_vs_X_under_noise.py:77-80 | `(c00 + c11) / shots` equals `P(00) + P(11)` |
| Metrics.CorrRateBounds | experiments/04_noise/exp_03_entanglement_correlations_under_noise.py:56-59 | with counts summing to shots, `corr_rate` lies in [0, 1] |
| Metrics.MetricGhz | experiments/06_multipartite/exp_02_robustness_under_noise.py:36-37 | the GHZ metric is 0 when neither `"000"` nor `"111"` occurs |
| Metrics.MetricW | experiments/06_multipartite/exp_02_robustness_under_noise.py:39-40 | the W metric is 0 when none of `"001"`, `"010"`, `"100"` occurs |
| Metrics.MultipartiteMetricBounds | experiments/06_multipartite/exp_02_robustness_under_noise.py:36-40 | with counts summing to shots, both metrics lie in [0, 1] |
| Metrics.FractionBounds | experiments/03_oracles/exp_05_random_oracles_classifier.py:141 | `correct / trials` with `correct <= trials` lies in [0, 1] |
| Metrics.GroverSuccess | experiments/08_grover/exp_02_grover_under_noise.py:45 | `counts.get("11", 0) / shots` lies in [0, 1] when the counts sum to shots |
| BooleanFunctions.ApplyIsBit | experiments/03_oracles/exp_01_classical_boolean_functions.py:9-19 | every `f_*` maps {0, 1} into {0, 1} |
| BooleanFunctions.ClassifyClassicallyQueriesTwoInputs | experiments/03_oracles/exp_01_classical_boolean_functions.py:28-37 | the verdict depends only on f(0) and f(1) |
| BooleanFunctions.ClassifyNamedFunctions | experiments/03_oracles/exp_01_classical_boolean_functions.py:21-37 | the two constant functions classify as constant, identity and not as balanced |
| Deutsch.Table | experiments/03_oracles/exp_03_deutsch_algorithm.py:6-24 | each Deutsch oracle's truth table has two entries |
| Deutsch.BuildOracle | experiments/03_oracles/exp_03_deutsch_algorithm.py:6-24 | each builder returns a fresh 2-qubit circuit with that oracle's gates |
| Deutsch.OracleRuns | experiments/03_oracles/exp_03_deutsch_algorithm.py:6-24 | constant_zero keeps y, constant_one flips it, identity adds x, not adds not-x; q0 is unchanged |
| Deutsch.OracleRunsOn | experiments/03_oracles/exp_03_deutsch_algorithm.py:6-24 | every oracle maps (x, y) to (x, y xor f(x)) |
| Deutsch.OracleRealises | experiments/03_oracles/exp_03_deutsch_algorithm.py:6-24 | every oracle realises `U_f` for its function |
| Deutsch.ClassicalTestMatchesOracle | experiments/03_oracles/exp_01_classical_boolean_functions.py:28-37 | the classical two-query verdict equals constancy / balance of the function the quantum oracle realises |
| Deutsch.DeutschAlgorithm | experiments/03_oracles/exp_03_deutsch_algorithm.py:33-42 | the circuit is X(1), H(0), H(1), the oracle, H(0), measure q0 into c0 |
| Deutsch.DeutschMeasuresInputOnly | experiments/03_oracles/exp_03_deutsch_algorithm.py:41 | the only measurement is q0 into c0 |
| DeutschJozsa2.DeutschJozsaCircuit | experiments/03_oracles/exp_05_random_oracles_classifier.py:75-97 | X(2), H on q0..q2, the composed oracle, H on q0 and q1, then measure q0 into c0 and q1 into c1 |
| DeutschJozsa2.DeutschJozsaMeasuresInputs | experiments/03_oracles/exp_04_deutsch_jozsa_n2.py:78-80 | around a measurement-free oracle, exactly q0 into c0 and q1 into c1 are measured |
| DeutschJozsa2.Table | experiments/03_oracles/exp_04_deutsch_jozsa_n2.py:21-49 | each fixed oracle's function has a four-entry table |
| DeutschJozsa2.BuildOracle | experiments/03_oracles/exp_04_deutsch_jozsa_n2.py:21-49 | each builder returns a fresh 3-qubit circuit with that oracle's gates |
| DeutschJozsa2.OracleRuns | experiments/03_oracles/exp_04_deutsch_jozsa_n2.py:21-49 | on (x0, x1, y) each oracle computes y xor f(x0, x1) for its commented f and keeps q0, q1 |
| DeutschJozsa2.OracleRunsOn | experiments/03_oracles/exp_04_deutsch_jozsa_n2.py:21-49 | every oracle maps (x, y) to (x, y xor f(x)) |
| DeutschJozsa2.OracleRealises | experiments/03_oracles/exp_04_deutsch_jozsa_n2.py:21-49 | every oracle realises `U_f` for its function |
| DeutschJozsa2.OracleKinds | experiments/03_oracles/exp_04_deutsch_jozsa_n2.py:21-49 | the constants are 1 on 0 or 4 inputs, each balanced oracle on exactly 2, and constancy / balance hold exactly for those names |
| DeutschJozsa2.DeutschJozsa | experiments/03_oracles/exp_04_deutsch_jozsa_n2.py:59-82 | the builder wraps the oracle in X(2), H x3, then H on q0 and q1 and the two measurements |
| DeutschJozsa2.ClassifyN2Meaning | experiments/03_oracles/exp_04_deutsch_jozsa_n2.py:84-87 | with counts summing to 2048 shots, CONSTANT exactly when no other outcome occurs |
| DeutschJozsa3.Table | experiments/03_oracles/exp_07b_deutsch_jozsa_n3.py:19-47 | each fixed oracle's function has an eight-entry table |
| DeutschJozsa3.BuildOracle | experiments/03_oracles/exp_07b_deutsch_jozsa_n3.py:19-47 | each builder returns a fresh 4-qubit circuit with that oracle's gates |
| DeutschJozsa3.OracleRuns | experiments/03_oracles/exp_07b_deutsch_jozsa_n3.py:19-47 | on (x0, x1, x2, y) each oracle computes y xor f(x) (parity for balanced_parity) and keeps q0..q2 |
| DeutschJozsa3.OracleRunsOn | experiments/03_oracles/exp_07b_deutsch_jozsa_n3.py:19-47 | every oracle maps (x, y) to (x, y xor f(x)) |
| DeutschJozsa3.OracleRealises | experiments/03_oracles/exp_07b_deutsch_jozsa_n3.py:19-47 | every oracle realises `U_f` for its function |
| DeutschJozsa3.OracleKinds | experiments/03_oracles/exp_07b_deutsch_jozsa_n3.py:19-47 | the constants are 1 on 0 or 8 inputs, each balanced oracle on exactly 4 |
| DeutschJozsa3.DeutschJozsa | experiments/03_oracles/exp_07b_deutsch_jozsa_n3.py:59-79 | X(3), H on q0..q3, the oracle, H on q0..q2, then the three measurements |
| DeutschJozsa3.DeutschJozsaMeasuresInputs | experiments/03_oracles/exp_07b_deutsch_jozsa_n3.py:74-77 | exactly q0..q2 are measured into c0..c2; the ancilla never is |
| DeutschJozsa3.ClassifyN3Meaning | experiments/03_oracles/exp_07b_deutsch_jozsa_n3.py:81-84 | with counts summing to 2048 shots, CONSTANT exactly when no outcome other than `"000"` occurs |
| Circuits.Repeat | experiments/08_grover/exp_02_grover_under_noise.py:17-25 | k copies of a block have k times its length |
| Circuits.CountRepeat | experiments/08_grover/exp_02_grover_under_noise.py:17-25 | a gate occurs k times as often in k copies of a block |
| Circuits.RepeatAt | experiments/08_grover/exp_02_grover_under_noise.py:17-25 | position j of copy i is the block's gate j |
| Circuits.MeasurementsAppend | experiments/03_oracles/exp_05_random_oracles_classifier.py:87-95 | the measurements of a concatenation are those of its parts, in order |
| Circuits.CountAppend | experiments/04_noise/exp_04_bell_correlations_Z_vs_X_under_noise.py:29-45 | gate occurrence counts are additive over concatenation |
| Circuits.AllFitRepeat | experiments/08_grover/exp_03_agentic_stopping_rule.py:26-27 | repeating a block that fits the register still fits it |
| Circuits.QuantumCircuit.constructor | experiments/03_oracles/exp_05_random_oracles_classifier.py:76 | `QuantumCircuit(n, m)` starts with no gates |
| Circuits.QuantumCircuit.Append | experiments/03_oracles/exp_05_random_oracles_classifier.py:79 | one gate call appends exactly that gate |
| Circuits.QuantumCircuit.Compose | experiments/03_oracles/exp_05_random_oracles_classifier.py:87 | `compose(other, inplace=True)` appends the other circuit's gates, which must fit the register |
| BellStates.BellPrep | experiments/02_two_qubits/exp_04_all_bell_states_measurement.py:16-30 | a fresh 2x2 circuit holding the preparation gates for the label |
| BellStates.BellMeasurement | experiments/02_two_qubits/exp_04_all_bell_states_measurement.py:32-40 | appends CX(0, 1), H(0), measure q0 into c0 and q1 into c1 to the given circuit |
| BellStates.BellPrepShape | experiments/02_two_qubits/exp_04_all_bell_states_measurement.py:18-28 | X(1) appears exactly for labels starting with "PSI", Z(0) exactly for labels ending with "MINUS", always around H(0), CX(0, 1) |
| BellStates.FlipBitstring | experiments/02_two_qubits/exp_04_all_bell_states_measurement.py:42-47 | the flip keeps the length |
| BellStates.FlipInvolution | experiments/02_two_qubits/exp_04_all_bell_states_measurement.py:45-47 | flipping twice gives the input back |
| BellStates.FlipInjective | experiments/02_two_qubits/exp_04_all_bell_states_measurement.py:45-47 | distinct keys stay distinct, so re-keying never merges entries |
| BellStates.RekeyCounts | experiments/02_two_qubits/exp_04_all_bell_states_measurement.py:74-77 | the re-keying loop builds the re-keyed counts |
| BellStates.RekeyTotal | experiments/02_two_qubits/exp_04_all_bell_states_measurement.py:74-77 | re-keying keeps the keys distinct and the total count |
| BellStates.RekeyGet | experiments/02_two_qubits/exp_04_all_bell_states_measurement.py:74-77 | the re-keyed count at flip(k) is the raw count at k |
| BellStates.ExpectedC0C1 | experiments/02_two_qubits/exp_04_all_bell_states_measurement.py:49-64 | succeeds exactly on the four Bell labels; any other label is a KeyError |
| BellStates.ExpectedBijection | experiments/02_two_qubits/exp_04_all_bell_states_measurement.py:58-63 | the mapping hits every two-bit string and no two labels share one |
| BellStates.ExpectedMatchesPreparation | experiments/02_two_qubits/exp_04_all_bell_states_measurement.py:18-28 | c0 = 1 exactly when the preparation applies Z(0) (MINUS), c1 = 1 exactly when it applies X(1) (PSI) |
| BellCircuits.BellPhiPlusCircuit | experiments/04_noise/exp_03_entanglement_correlations_under_noise.py:24-30 | H(0), CX(0, 1), measure q0 into c0 and q1 into c1 |
| BellCircuits.XBasisCaseInsensitive | experiments/04_noise/exp_04_bell_correlations_Z_vs_X_under_noise.py:39 | the X branch is taken exactly for "X" and "x" |
| BellCircuits.BellPhiPlus | experiments/04_noise/exp_04_bell_correlations_Z_vs_X_under_noise.py:29-45 | a fresh 2x2 circuit holding the timestep Bell gates for the basis |
| BellCircuits.TimestepIdCount | experiments/04_noise/exp_04_bell_correlations_Z_vs_X_under_noise.py:34-37 | with timesteps there are exactly TIMESTEPS_AFTER_CX `id` gates on each qubit, otherwise none |
| BellCircuits.TimestepIdsFollowCx | experiments/04_noise/exp_05_plot_bell_correlations_Z_vs_X.py:27-33 | the `id` pairs come straight after the CX, q0 before q1 |
| BellCircuits.XVariantAddsHadamards | experiments/04_noise/exp_04_bell_correlations_Z_vs_X_under_noise.py:39-44 | the X circuit is the Z circuit with H(0), H(1) inserted before the two measurements |
| BellCircuits.BellMeasurements | experiments/04_noise/exp_05_plot_bell_correlations_Z_vs_X.py:39-40 | both bases measure exactly q0 into c0 and q1 into c1 |
| BellCircuits.PlainBellIsZBasisWithoutTimesteps | experiments/04_noise/exp_03_entanglement_correlations_under_noise.py:24-30 | the plain Bell circuit is the Z-basis circuit without timesteps |
| BellCircuits.BellStatePhiPlus | experiments/07_agentic/exp_02_agentic_basis_selection.py:23-27 | H(0), CX(0, 1) on two qubits and no classical bits |
| BellCircuits.MeasureInZ | experiments/07_agentic/exp_02_agentic_basis_selection.py:29-33 | the Bell pair followed by the two measurements |
| BellCircuits.MeasureInX | experiments/07_agentic/exp_02_agentic_basis_selection.py:35-41 | the Bell pair, H on both qubits, then the two measurements |
| BellCircuits.CorrFor | experiments/04_noise/exp_05_plot_bell_correlations_Z_vs_X.py:72-82 | fails with "Unknown noise kind" exactly when some level builds no model; otherwise both lists hold one Z / X correlation per level, in order |
| Interference.Outcome | experiments/04_noise/exp_02_interference_under_noise_hzh.py:4-5 | only |0> and |1> give a deterministic measurement result |
| Interference.CircuitA | experiments/04_noise/exp_02_interference_under_noise_hzh.py:25-30 | a fresh 1x1 circuit H, H, measure |
| Interference.CircuitB | experiments/04_noise/exp_02_interference_under_noise_hzh.py:32-38 | a fresh 1x1 circuit H, Z, H, measure |
| Interference.CircuitBIsAWithZ | experiments/04_noise/exp_02_interference_under_noise_hzh.py:25-38 | circuit B is circuit A with Z(0) between the two H gates; both measure q0 into c0 only |
| Interference.Interference | experiments/04_noise/exp_02_interference_under_noise_hzh.py:4-5 | HH is the identity and HZH acts as X on the four states |
| Interference.IdealOutcomes | experiments/04_noise/exp_02_interference_under_noise_hzh.py:79-80 | from |0>, circuit A ideally gives "0" and circuit B gives "1" |
| Interference.ErrorKeysAreTheOtherOutcome | experiments/04_noise/exp_02_interference_under_noise_hzh.py:79-80 | the error rate of each circuit is read off the outcome its ideal run never gives |
| Interference.ErrorRatesBounds | experiments/04_noise/exp_02_interference_under_noise_hzh.py:79-80 | both error rates lie in [0, 1] |
| Interference.ErrorRateExtremes | experiments/04_noise/exp_02_interference_under_noise_hzh.py:65-66 | all shots on the ideal outcome give error 0; error 1 exactly when all shots hit the error key |
| Noise.WithErrorEffect | experiments/03_oracles/exp_06_noise_robustness.py:87-88 | adding one error to a list of gates covers exactly the old gates plus those, appending the error to each listed gate and leaving the rest alone |
| Noise.WithErrorAppend | experiments/04_noise/exp_04_bell_correlations_Z_vs_X_under_noise.py:64-65 | two calls on gate lists `a` then `b` equal one call on `a + b` |
| Noise.ReadoutMatrixStochastic | experiments/03_oracles/exp_06_noise_robustness.py:94-97 | `[[1-p, p], [p, 1-p]]` is 2x2, symmetric, each row sums to 1, and its entries are probabilities when p is |
| Noise.NoiseModel.constructor | experiments/03_oracles/exp_06_noise_robustness.py:80 | `NoiseModel()` carries no errors and no readout error |
| Noise.NoiseModel.AddAllQubitQuantumError | experiments/03_oracles/exp_06_noise_robustness.py:88 | adds the error to every listed gate and leaves the readout alone |
| Noise.NoiseModel.AddAllQubitReadoutError | experiments/03_oracles/exp_06_noise_robustness.py:97 | sets the readout matrix and leaves gate errors alone |
| Noise.BuildGateAndReadoutNoise | experiments/03_oracles/exp_06_noise_robustness.py:75-99 | the mutating builder yields exactly the gate-and-readout configuration |
| Noise.GateAndReadoutNoiseShape | experiments/03_oracles/exp_07a_noise_stress_test.py:64-79 | for p_gate > 0 exactly x, h, z carry 1-qubit and cx 2-qubit depolarizing(p_gate); otherwise no gate errors; a readout matrix exactly when p_readout > 0 |
| Noise.NoNoiseIsIdeal | experiments/03_oracles/exp_06_noise_robustness.py:80-99 | with both levels <= 0 the model carries nothing |
| Noise.BuildGuardedDepolarizing | experiments/07_agentic/exp_01_agentic_shots_optimizer.py:24-29 | the `if p > 0` builder yields the guarded depolarizing configuration |
| Noise.BuildDepolarizing | experiments/08_grover/exp_03_agentic_stopping_rule.py:31-35 | the unguarded builder always attaches the errors |
| Noise.DepolarizingOnShape | experiments/08_grover/exp_02_grover_under_noise.py:33-34 | the 1-qubit gates carry depolarizing(p, 1), the 2-qubit gates depolarizing(p, 2), and no other gate carries an error |
| Noise.GuardedDepolarizingIdeal | experiments/07_agentic/exp_03_agentic_noise_threshold_policy.py:34-41 | for p <= 0 the guarded builder gives the empty model |
| Noise.KindNoise | experiments/07_agentic/exp_02_agentic_basis_selection.py:46-66 | ValueError exactly when p > 0 and the kind is neither "phase" nor "depolarizing"; never a readout error |
| Noise.BuildKindNoise | experiments/07_agentic/exp_02_agentic_basis_selection.py:46-66 | the mutating builder fails or succeeds as the table does, and yields that table |
| Noise.KindNoisePhaseShape | experiments/07_agentic/exp_02_agentic_basis_selection.py:51-55 | "phase" puts phase damping on exactly the phase gates |
| Noise.KindNoiseDepolarizingShape | experiments/07_agentic/exp_02_agentic_basis_selection.py:57-61 | "depolarizing" puts 1-qubit errors on exactly its 1-qubit gates and 2-qubit errors on exactly its 2-qubit gates |
| NoiseInstances.InterferenceNoiseShape | experiments/04_noise/exp_02_interference_under_noise_hzh.py:40-59 | empty for p <= 0; phase damping on h and z; 1-qubit depolarizing on h and z; ValueError otherwise |
| NoiseInstances.BellNoiseShape | experiments/04_noise/exp_03_entanglement_correlations_under_noise.py:32-50 | empty for p <= 0; phase damping on h only; depolarizing on h and cx; ValueError otherwise |
| NoiseInstances.TimestepBellNoiseShape | experiments/04_noise/exp_04_bell_correlations_Z_vs_X_under_noise.py:47-71 | empty for p <= 0; phase damping on h and id and never cx; depolarizing on h, id and cx; ValueError otherwise |
| NoiseInstances.TimestepBellTwoCalls | experiments/04_noise/exp_05_plot_bell_correlations_Z_vs_X.py:56-57 | adding the error to h and then to id gives the table of one call on both |
| NoiseInstances.TeleportationNoiseShape | experiments/05_communication/exp_02_teleportation_under_noise.py:69-90 | empty for p <= 0; phase damping on h, id, ry, rz, z and never cx; depolarizing adds cx; ValueError otherwise |
| NoiseInstances.HAndCxNoiseShape | experiments/07_agentic/exp_03_agentic_noise_threshold_policy.py:34-41 | empty for p <= 0; otherwise 1-qubit depolarizing on h and 2-qubit on cx only |
| NoiseInstances.RotationWNoiseShape | experiments/06_multipartite/exp_02_robustness_under_noise.py:46-49 | empty for p <= 0; otherwise h and ry get 1-qubit errors and cx a 2-qubit error |
| NoiseInstances.InitializeWNoiseShape | experiments/06_multipartite/exp_03_plot_ghz_vs_w_robustness.py:64-71 | empty for p <= 0; otherwise h and initialize get 1-qubit errors and cx a 2-qubit error |
| NoiseInstances.GroverErrorsShape | experiments/08_grover/exp_02_grover_under_noise.py:33-34 | h and x get 1-qubit errors, cx and cz 2-qubit errors, nothing else |
| NoiseInstances.GroverNoiseShape | experiments/08_grover/exp_02_grover_under_noise.py:30-35 | empty for p <= 0, otherwise the Grover errors |
| NoiseInstances.GroverStoppingNoiseUnguarded | experiments/08_grover/exp_03_agentic_stopping_rule.py:31-35 | without the guard, every p attaches errors to h, x, cx and cz |
| Multipartite.Ghz3 | experiments/06_multipartite/exp_02_robustness_under_noise.py:18-24 | H(0), CX(0, 1), CX(1, 2), then measure qi into ci |
| Multipartite.W3 | experiments/06_multipartite/exp_02_robustness_under_noise.py:26-34 | ry, cx, ry, cx, cx with the script's angles, then measure qi into ci |
| Multipartite.BitString | experiments/06_multipartite/exp_03_plot_ghz_vs_w_robustness.py:35-45 | the n-bit string of an index has length n |
| Multipartite.W3InitializeVector | experiments/06_multipartite/exp_03_plot_ghz_vs_w_robustness.py:47-51 | the 8-entry vector holds `amp` at indices 1, 2, 4 and 0 elsewhere |
| Multipartite.WIndicesAreWKeys | experiments/06_multipartite/exp_03_plot_ghz_vs_w_robustness.py:35-45 | the indices below 8 with one bit set are exactly those printed as "001", "010", "100", the W metric keys |
| Multipartite.WVectorNorm | experiments/06_multipartite/exp_03_plot_ghz_vs_w_robustness.py:34 | the squared norm of the W vector is 3 amp^2, so 1 for amp = 1/sqrt(3) |
| Multipartite.W3Initialize | experiments/06_multipartite/exp_03_plot_ghz_vs_w_robustness.py:32-56 | the circuit initialises q0..q2 with a W vector and measures them |
| Multipartite.MultipartiteMeasurements | experiments/06_multipartite/exp_03_plot_ghz_vs_w_robustness.py:29-55 | all three circuits measure exactly qi into ci |
| Multipartite.RobustnessSweep | experiments/06_multipartite/exp_03_plot_ghz_vs_w_robustness.py:77-92 | `ghz_vals` and `w_vals` get one metric per noise level, in order |
| Teleportation.PreparePsi | experiments/05_communication/exp_02_teleportation_under_noise.py:26-28 | appends ry(theta), rz(phi) on the given qubit |
| Teleportation.TeleportationCircuit | experiments/05_communication/exp_02_teleportation_under_noise.py:30-62 | a fresh 3-qubit circuit holding the staged teleportation gates |
| Teleportation.ReferenceCircuit | experiments/05_communication/exp_02_teleportation_under_noise.py:64-67 | the reference prepares psi on q2 |
| Teleportation.ReferenceMatchesInput | experiments/05_communication/exp_04_plot_teleportation_fidelity_vs_noise.py:30-32 | the reference rotations on q2 equal the input rotations on q0 |
| Teleportation.WithoutIdsAppend | experiments/05_communication/exp_02_teleportation_under_noise.py:40-60 | dropping `id` gates distributes over concatenation |
| Teleportation.WithoutIdsOfWait | experiments/05_communication/exp_02_teleportation_under_noise.py:40-43 | a timestep block holds only `id` gates |
| Teleportation.StagedCount | experiments/05_communication/exp_02_teleportation_under_noise.py:30-62 | gate counts of the staged circuit add up over its six stages |
| Teleportation.TeleportationIsStaged | experiments/05_communication/exp_02_teleportation_under_noise.py:30-62 | psi on q0, H(1), CX(1, 2), wait on q1 q2, CX(0, 1), H(0), wait on q0 q1, CX(1, 2), CZ(0, 2), wait on q2 |
| Teleportation.TimestepsOnlyAddIds | experiments/05_communication/exp_02_teleportation_under_noise.py:30-62 | without its `id` gates the circuit is exactly ry, rz, H(1), CX(1, 2), CX(0, 1), H(0), CX(1, 2), CZ(0, 2), with the corrections X on q2 controlled by q1 and Z on q2 controlled by q0 |
| Teleportation.WaitCount | experiments/05_communication/exp_02_teleportation_under_noise.py:40-43 | a wait repeats its block T times when timesteps are on, else not at all |
| Teleportation.TimestepIdCount | experiments/05_communication/exp_04_plot_teleportation_fidelity_vs_noise.py:42-60 | T ids on q0, 2T on q1, 2T on q2: 5T in all |
| Teleportation.FidelitySweep | experiments/05_communication/exp_04_plot_teleportation_fidelity_vs_noise.py:113-121 | `phase_f` and `dep_f` get one fidelity per level, in order, each for a model that builds |
| Grover.GroverStep | experiments/08_grover/exp_03_agentic_stopping_rule.py:13-21 | appends the 12-gate CZ oracle plus diffusion block |
| Grover.BuildCircuit | experiments/08_grover/exp_03_agentic_stopping_rule.py:23-29 | a fresh 2x2 circuit holding the k-round Grover gates |
| Grover.GroverLayout | experiments/08_grover/exp_02_grover_under_noise.py:13-28 | 2 H gates, k copies of the 12-gate block, 2 measurements: 4 + 12k gates |
| Grover.GroverGateCount | experiments/08_grover/exp_02_grover_under_noise.py:17-25 | k rounds hold exactly k CZ and k CX gates |
| Grover.GroverMeasurements | experiments/08_grover/exp_02_grover_under_noise.py:27 | exactly q0 into c0 and q1 into c1 are measured |
| Grover.StepCount | experiments/08_grover/exp_03_agentic_stopping_rule.py:13-21 | one round holds one CZ and one CX |
| Grover.SuccessAt | experiments/08_grover/exp_03_agentic_stopping_rule.py:46-47 | the success rate after k rounds is non-negative |
| Grover.NoiseSweep | experiments/08_grover/exp_02_grover_under_noise.py:39-46 | every (p, k) pair is evaluated exactly once, at `table[p][k]` |
| Grover.StoppingRule | experiments/08_grover/exp_03_agentic_stopping_rule.py:42-55 | no iteration exactly when max_iters is 0; otherwise 1 <= best_k <= max_iters; best_p is the rate at best_k; rates rise weakly up to best_k; the loop stops at the first strict decrease |
| Agents.ChooseShots | experiments/07_agentic/exp_01_agentic_shots_optimizer.py:39-52 | the choice is the first candidate meeting the target, and the smallest one for ascending candidates; candidates after it are never evaluated; no choice exactly when none meets the target; success is reported exactly when a choice exists |
| Agents.ChooseBasis | experiments/07_agentic/exp_02_agentic_basis_selection.py:82 | Z exactly when corr_z >= corr_x (ties go to Z); the chosen correlation is the maximum |
| ThresholdSearch.NumPoints | experiments/03_oracles/exp_07c_agentic_threshold_search.py:133 | the loop visits exactly the points `low + n*step` that are <= high + 1e-9 |
| ThresholdSearch.Refine | experiments/07_agentic/exp_03_agentic_noise_threshold_policy.py:74-84 | the loop ends; the result is the last taken point or the start; it never drops below the start, keeps a passing score, and bounds every taken point |
| ThresholdSearch.Clamp | experiments/03_oracles/exp_07c_agentic_threshold_search.py:122-123 | 0 <= low <= best <= high <= 0.5, each within 0.05 of best |
| ThresholdSearch.CoarseResults | experiments/03_oracles/exp_07c_agentic_threshold_search.py:104-110 | `results` pairs each grid point with its score, in order |
| ThresholdSearch.CandidatesMembers | experiments/03_oracles/exp_07c_agentic_threshold_search.py:113 | a point is a candidate exactly when some result pairs it with a passing score |
| ThresholdSearch.Max | experiments/03_oracles/exp_07c_agentic_threshold_search.py:118 | `max(candidates)` is a candidate and bounds all of them |
| ThresholdSearch.CoarseScan | experiments/07_agentic/exp_03_agentic_noise_threshold_policy.py:51-62 | the scan keeps the last passing point and its score, or none |
| ThresholdSearch.LastPassingIsMax | experiments/07_agentic/exp_03_agentic_noise_threshold_policy.py:21 | on the ascending grid the last passing point is the largest |
| ThresholdSearch.CoarseGridFacts | experiments/03_oracles/exp_07c_agentic_threshold_search.py:104 | the grid is ascending and lies in [0, 0.5] |
| ThresholdSearch.ThresholdPolicy | experiments/07_agentic/exp_03_agentic_noise_threshold_policy.py:51-84 | exits exactly when no grid point meets the target; otherwise best_p is the largest passing grid point, 0 <= low <= best_p <= high <= 0.5, and the refined estimate meets the target, is never below best_p, is best_p or a window point the refinement took, and bounds every window point the refinement took |
| ThresholdSearch.ThresholdSearch | experiments/03_oracles/exp_07c_agentic_threshold_search.py:104-139 | exits exactly when no grid point meets the target; otherwise best is the largest candidate, the window is clamped, and the estimate is the last window point whose accuracy met the target, else low with accuracy 0.0 |
| ThresholdSearch.EstimateCanFallBelowCoarseBest | experiments/03_oracles/exp_07c_agentic_threshold_search.py:130-131 | because refinement restarts from (low, 0.0), an estimate can lie below the coarse best with accuracy 0.0 |
| Trials.TableHasDrawnKind | experiments/03_oracles/exp_05_random_oracles_classifier.py:116-121 | the drawn table is the generated one, and it is constant exactly for CONSTANT and balanced exactly for BALANCED, so the sanity assertion holds |
| Trials.ExactRuleMeaning | experiments/03_oracles/exp_05_random_oracles_classifier.py:99-107 | when the counts are distinct and sum to the 1024 shots, the rule says CONSTANT exactly when every key other than `"00"` has count 0 |
| Trials.HonestMajority | experiments/03_oracles/exp_08_plot_noise_curve.py:73-75 | counts that sum to a positive number of shots are non-empty, and the majority rule then is the vote |
| Trials.Hits | experiments/03_oracles/exp_05_random_oracles_classifier.py:114-130 | `correct` never exceeds the number of trials |
| Trials.Accuracy | experiments/03_oracles/exp_05_random_oracles_classifier.py:141 | `correct / trials` lies in [0, 1] |
| Trials.AllHitsIff | experiments/03_oracles/exp_05_random_oracles_classifier.py:129-130 | all trials count as correct exactly when every verdict is right |
| Trials.NoHitsIff | experiments/03_oracles/exp_05_random_oracles_classifier.py:129-130 | no trial counts exactly when every verdict is wrong |
| Trials.EvaluateAccuracy | experiments/03_oracles/exp_07c_agentic_threshold_search.py:86-98 | the trial loop computes the block accuracy, which lies in [0, 1] |
| Trials.RandomOraclesClassifier | experiments/03_oracles/exp_05_random_oracles_classifier.py:114-141 | 20 noiseless trials of 1024 shots under the exact rule; accuracy in [0, 1] |
| Trials.AccuracyOneIff | experiments/03_oracles/exp_05_random_oracles_classifier.py:141-145 | accuracy is 1.0 exactly when every trial is classified right |
| Trials.AccuracyZeroIff | experiments/03_oracles/exp_05_random_oracles_classifier.py:141 | accuracy is 0.0 exactly when every trial is classified wrong |
| Trials.IdealClassifierIsExact | experiments/03_oracles/exp_05_random_oracles_classifier.py:141-145 | if the ideal simulator puts all shots on "00" exactly for constant oracles, accuracy is 1.0 |
| Trials.SweepConfigsShape | experiments/03_oracles/exp_08_plot_noise_curve.py:77-91 | the g-th model of the sweep has depolarizing errors on x, h, z (1-qubit) and cx (2-qubit) exactly when the g-th gate level is positive and none otherwise, and the symmetric readout matrix exactly when the readout level is positive |
| Trials.RowIsAt | experiments/03_oracles/exp_06_noise_robustness.py:110-130 | each accuracy in a sweep row is its own block of trials and lies in [0, 1] |
| Trials.GateSweep | experiments/03_oracles/exp_06_noise_robustness.py:110-130 | the inner loop gives one accuracy per gate level |
| Trials.ReadoutSweep | experiments/03_oracles/exp_06_noise_robustness.py:107-130 | the outer loop gives one row per readout level |
| Trials.NoiseRobustness | experiments/03_oracles/exp_06_noise_robustness.py:101-130 | 2 x 6 accuracies, one block of 30 majority-vote trials per (p_readout, p_gate) pair |
| Trials.RunGrid | experiments/03_oracles/exp_07a_noise_stress_test.py:81-103 | one plane per shots value; each plane covers every (p_readout, p_gate) pair with `trials` trials |
| Trials.StressTest | experiments/03_oracles/exp_07a_noise_stress_test.py:106-111 | 3 x 3 x 5 accuracies of 40 trials each |
| Trials.AccuracyCurve | experiments/03_oracles/exp_08_plot_noise_curve.py:116-120 | `accuracies` has one entry per gate level (13), in order |
| Trials.Evaluator | experiments/03_oracles/exp_07c_agentic_threshold_search.py:86-98 | `evaluate_accuracy` always returns a value in [0, 1] |

## Left out

- The quantum simulation: `AerSimulator.run`, `get_counts`, `Statevector`, `DensityMatrix`, `partial_trace` and `state_fidelity` are library numerics. Counts, correlations and fidelities come from function parameters. The trial evaluators index the simulator by call number, so repeated runs may differ. The sweeps `BellCircuits.CorrFor`, `Multipartite.RobustnessSweep` and `Grover.NoiseSweep` take a `run` that is a function of (circuit, noise model), so they read one sample per (circuit, noise model) pair; each sweep runs every pair once, so this loses nothing.
- Amplitude semantics of H, RY, RZ, CZ and `initialize`. Only X, CX and CCX act on basis states. The HZH circuits additionally use a four-state model.
- `random.choice` / `random.sample` and seeding. A draw is a parameter constrained to the range the call draws from (`Trials.ValidDraw`).
- Plotting, `savefig`, `print`, `qc.draw()` and display rounding: these are output only.
- ThresholdSearch.Refine: noise levels are exact reals. The `round(p, 3)` passed to the evaluator and the `round(p + refine_step, 2)` step are not modelled, and neither is float drift of `p += step`.
- Trials.MajorityRule: reads empty counts as BALANCED where Python's `max` raises. `Trials.HonestMajority` shows the case never arises when the counts sum to a positive number of shots.
- BellCircuits.Upper: ASCII case mapping only, standing in for Python's Unicode `str.upper()`, which can change a string's length (`'ß'.upper() == 'SS'`). `IsXBasis` is unaffected for the bases the scripts pass, "Z" and "X".
- Noise.BuildGateAndReadoutNoise, Noise.BuildGuardedDepolarizing, Noise.BuildDepolarizing, Noise.KindNoise: the noise library's own argument checks are not modelled. `depolarizing_error` raises for p above 4^n / (4^n - 1), `phase_damping_error` for a parameter outside [0, 1], and `ReadoutError` for rows that are not probability vectors (p_readout outside [0, 1]). The builders here return a model for every real level. All levels the scripts pass lie in [0, 0.5], where none of these checks fires.
- Multipartite.W3InitializeVector: the amplitude `1/sqrt(3)` is a parameter `amp`, and the complex vector is real. `Multipartite.WVectorNorm` gives the norm as 3 amp^2.
- Agents.ChooseShots: `if chosen:` is modelled as "a choice exists". This is the same thing because every candidate is positive.
- Grover.StoppingRule: the noise model of the run (`NoiseInstances.GroverStoppingNoise` at p = 0.1) is fixed inside the `run` parameter.
- experiments/04_noise_and_fidelity/exp_01_fidelity_basics.py is not part of this model, since its only logic is complex-vector fidelity.
- The fixed one-circuit scripts are not part of this model: 01_single_qubit_gates, 02_two_qubits exp_01, exp_02, exp_03 and exp_05, 04_noise/exp_01, 05_communication exp_01 and exp_03, 06_multipartite/exp_01 and 08_grover/exp_01.
- `qc.draw()` text and the `SystemExit(0)` of the threshold searches become the `NoneMeetTarget` outcome. No process exit is modelled.
