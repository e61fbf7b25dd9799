/**
 * Preparing and measuring the four Bell states, the expected outcome per
 * state, and the conversion of Qiskit's c1c0 bit strings into c0c1 order.
 */
module BellStates {
  import opened Wrappers
  import opened Circuits
  import opened Counts

  /** `s.startswith(prefix)` */
  predicate StartsWith(s: string, prefix: string) {
    |prefix| <= |s| && s[..|prefix|] == prefix
  }

  /** `s.endswith(suffix)` */
  predicate EndsWith(s: string, suffix: string) {
    |suffix| <= |s| && s[|s| - |suffix|..] == suffix
  }

  /** X(1) for a PSI label, then H(0), CX(0, 1), then Z(0) for a MINUS label. */
  function BellPrepGates(name: string): seq<Gate> {
    (if StartsWith(name, "PSI") then [X(1)] else [])
    + [H(0), CX(0, 1)]
    + (if EndsWith(name, "MINUS") then [Z(0)] else [])
  }

  /** `bell_prep(label)` */
  method BellPrep(name: string) returns (qc: QuantumCircuit)
    ensures fresh(qc) && qc.numQubits == 2 && qc.numClbits == 2 && qc.Valid()
    ensures qc.ops == BellPrepGates(name)
  {
    qc := new QuantumCircuit(2, 2);
    if StartsWith(name, "PSI") {
      qc.Append(X(1));
    }
    qc.Append(H(0));
    qc.Append(CX(0, 1));
    if EndsWith(name, "MINUS") {
      qc.Append(Z(0));
    }
  }

  /** The gates of the Bell-basis measurement: undo the entangler, then measure q0 -> c0, q1 -> c1. */
  const BellMeasurementGates: seq<Gate> := [CX(0, 1), H(0), Measure(0, 0), Measure(1, 1)]

  /** `bell_measurement(qc)`: appends to the circuit it is given. */
  method BellMeasurement(qc: QuantumCircuit)
    requires qc.Valid() && qc.numQubits >= 2 && qc.numClbits >= 2
    modifies qc
    ensures qc.Valid() && qc.ops == old(qc.ops) + BellMeasurementGates
  {
    qc.Append(CX(0, 1));
    qc.Append(H(0));
    qc.Append(Measure(0, 0));
    qc.Append(Measure(1, 1));
  }

  /** X(1) is emitted exactly for PSI labels and Z(0) exactly for MINUS labels; H(0), CX(0, 1) always. */
  lemma BellPrepShape(name: string)
    ensures X(1) in BellPrepGates(name) <==> StartsWith(name, "PSI")
    ensures Z(0) in BellPrepGates(name) <==> EndsWith(name, "MINUS")
    ensures H(0) in BellPrepGates(name) && CX(0, 1) in BellPrepGates(name)
    ensures |BellPrepGates(name)| == 2 + (if StartsWith(name, "PSI") then 1 else 0) + (if EndsWith(name, "MINUS") then 1 else 0)
  {
    var a := if StartsWith(name, "PSI") then [X(1)] else [];
    var b := if EndsWith(name, "MINUS") then [Z(0)] else [];
    var gs := BellPrepGates(name);
    assert gs == a + [H(0), CX(0, 1)] + b;
    if X(1) in gs {
      var i :| 0 <= i < |gs| && gs[i] == X(1);
      assert i < |a|;
    }
    if Z(0) in gs {
      var i :| 0 <= i < |gs| && gs[i] == Z(0);
      assert i >= |a| + 2;
    }
    assert gs[|a|] == H(0) && gs[|a| + 1] == CX(0, 1);
  }

  /** `flip_bitstring_c1c0_to_c0c1`: a string of length 2 is reversed, any other returned as it is. */
  function FlipBitstring(s: string): (r: string)
    ensures |r| == |s|
  {
    if |s| != 2 then s else [s[1], s[0]]
  }

  /** Flipping twice gives the string back. */
  lemma FlipInvolution(s: string)
    ensures FlipBitstring(FlipBitstring(s)) == s
  {
    if |s| == 2 {
      assert s == [s[0], s[1]];
    }
  }

  /** No two keys are merged by the flip. */
  lemma FlipInjective(s: string, t: string)
    requires FlipBitstring(s) == FlipBitstring(t)
    ensures s == t
  {
    FlipInvolution(s);
    FlipInvolution(t);
  }

  /** The loop `counts_c0c1[kk] = counts_c0c1.get(kk, 0) + v` after the first entries of `raw`. */
  function Rekey(raw: Counts): Counts
    decreases |raw|
  {
    if raw == [] then []
    else
      var prev := Rekey(raw[..|raw| - 1]);
      var e := raw[|raw| - 1];
      var kk := FlipBitstring(e.key);
      Put(prev, kk, Get(prev, kk) + e.count)
  }

  /** The re-keying loop of `run(label)`. */
  method RekeyCounts(raw: Counts) returns (out: Counts)
    ensures out == Rekey(raw)
  {
    out := [];
    for i := 0 to |raw|
      invariant out == Rekey(raw[..i])
    {
      var kk := FlipBitstring(raw[i].key);
      assert raw[..i + 1][..i] == raw[..i];
      out := Put(out, kk, Get(out, kk) + raw[i].count);
    }
    assert raw[..|raw|] == raw;
  }

  /** The re-keyed dict has distinct keys and the same number of shots. */
  lemma {:induction false} RekeyTotal(raw: Counts)
    ensures Distinct(Rekey(raw))
    ensures Total(Rekey(raw)) == Total(raw)
    decreases |raw|
  {
    if raw != [] {
      var init := raw[..|raw| - 1];
      var e := raw[|raw| - 1];
      RekeyTotal(init);
      var prev := Rekey(init);
      var kk := FlipBitstring(e.key);
      PutDistinct(prev, kk, Get(prev, kk) + e.count);
      PutTotal(prev, kk, Get(prev, kk) + e.count);
      assert raw == init + [e];
      TotalSnoc(init, e);
    }
  }

  /** Each raw count reappears under the flipped key: `counts_c0c1[flip(k)] == counts_raw[k]`. */
  lemma {:induction false} RekeyGet(raw: Counts, k: string)
    requires Distinct(raw)
    ensures Get(Rekey(raw), FlipBitstring(k)) == Get(raw, k)
    decreases |raw|
  {
    if raw != [] {
      var init := raw[..|raw| - 1];
      var e := raw[|raw| - 1];
      assert raw == init + [e];
      DistinctSnoc(init, e);
      RekeyGet(init, k);
      RekeyGet(init, e.key);
      var prev := Rekey(init);
      var kk := FlipBitstring(e.key);
      PutGet(prev, kk, Get(prev, kk) + e.count, FlipBitstring(k));
      GetSnoc(init, e, k);
      if FlipBitstring(k) == kk {
        FlipInjective(k, e.key);
      }
    }
  }

  /** `expected_c0c1(label)`; a label outside the dict raises KeyError. */
  function ExpectedC0C1(name: string): (r: Result<string, string>)
    ensures r.Success? <==> name in {"PHI_PLUS", "PHI_MINUS", "PSI_PLUS", "PSI_MINUS"}
  {
    var mapping := map["PHI_PLUS" := "00", "PHI_MINUS" := "10", "PSI_PLUS" := "01", "PSI_MINUS" := "11"];
    if name in mapping then Success(mapping[name]) else Failure("KeyError")
  }

  /** The four labels map one-to-one onto the four 2-bit strings. */
  lemma ExpectedBijection(n1: string, n2: string)
    ensures forall s :: s in {"00", "01", "10", "11"} ==>
      exists n :: n in {"PHI_PLUS", "PHI_MINUS", "PSI_PLUS", "PSI_MINUS"} && ExpectedC0C1(n) == Success(s)
    ensures ExpectedC0C1(n1).Success? && ExpectedC0C1(n1) == ExpectedC0C1(n2) ==> n1 == n2
  {
    assert ExpectedC0C1("PHI_PLUS") == Success("00");
    assert ExpectedC0C1("PHI_MINUS") == Success("10");
    assert ExpectedC0C1("PSI_PLUS") == Success("01");
    assert ExpectedC0C1("PSI_MINUS") == Success("11");
  }

  /** In the expected c0c1 string, c0 is 1 iff the preparation applied Z(0), c1 is 1 iff it applied X(1). */
  lemma ExpectedMatchesPreparation(name: string)
    requires ExpectedC0C1(name).Success?
    ensures var s := ExpectedC0C1(name).value;
      && |s| == 2
      && (s[0] == '1' <==> Z(0) in BellPrepGates(name))
      && (s[1] == '1' <==> X(1) in BellPrepGates(name))
  {
    BellPrepShape(name);
    assert name[..3] == "PHI" || name[..3] == "PSI";
  }
}
