/**
 * The gate-list view of a Qiskit `QuantumCircuit`: the scripts only ever append
 * gates to a circuit (`qc.x(1)`, `qc.cx(0, 1)`, `qc.measure(0, 0)`) or splice
 * another circuit in with `compose(..., inplace=True)`.
 */
module Circuits {

  /** One instruction of a circuit.  Angles are exact reals. */
  datatype Gate =
    | X(q: nat)
    | H(q: nat)
    | Z(q: nat)
    | Id(q: nat)
    | RY(angle: real, q: nat)
    | RZ(angle: real, q: nat)
    | CX(control: nat, target: nat)
    | CZ(control: nat, target: nat)
    | CCX(control1: nat, control2: nat, target: nat)
    | Initialize(amplitudes: seq<real>, qubits: seq<nat>)
    | Measure(q: nat, clbit: nat)

  function Pow2(n: nat): (r: nat)
    ensures r >= 1
  {
    if n == 0 then 1 else 2 * Pow2(n - 1)
  }

  /** The qubits an instruction acts on, in argument order. */
  function Qubits(g: Gate): seq<nat> {
    match g
    case X(q) => [q]
    case H(q) => [q]
    case Z(q) => [q]
    case Id(q) => [q]
    case RY(_, q) => [q]
    case RZ(_, q) => [q]
    case CX(c, t) => [c, t]
    case CZ(c, t) => [c, t]
    case CCX(a, b, t) => [a, b, t]
    case Initialize(_, qs) => qs
    case Measure(q, _) => [q]
  }

  /**
   * What Qiskit checks when an instruction is appended to a circuit with
   * `nq` qubits and `nc` classical bits: every qubit index in range and
   * no qubit used twice; a classical index in range; an initial state
   * vector of length 2^k for k qubits.
   */
  predicate Fits(g: Gate, nq: nat, nc: nat) {
    var qs := Qubits(g);
    && (forall i :: 0 <= i < |qs| ==> qs[i] < nq)
    && (forall i, j :: 0 <= i < j < |qs| ==> qs[i] != qs[j])
    && (g.Measure? ==> g.clbit < nc)
    && (g.Initialize? ==> |g.amplitudes| == Pow2(|g.qubits|))
  }

  predicate AllFit(ops: seq<Gate>, nq: nat, nc: nat) {
    forall i :: 0 <= i < |ops| ==> Fits(ops[i], nq, nc)
  }

  /** The (qubit, classical bit) pairs of the measurements, in circuit order. */
  function Measurements(ops: seq<Gate>): seq<(nat, nat)> {
    if ops == [] then []
    else (if ops[0].Measure? then [(ops[0].q, ops[0].clbit)] else []) + Measurements(ops[1..])
  }

  lemma {:induction false} MeasurementsAppend(a: seq<Gate>, b: seq<Gate>)
    ensures Measurements(a + b) == Measurements(a) + Measurements(b)
  {
    if a == [] {
      assert a + b == b;
    } else {
      assert (a + b)[1..] == a[1..] + b;
      MeasurementsAppend(a[1..], b);
    }
  }

  predicate NoMeasure(ops: seq<Gate>) {
    forall i :: 0 <= i < |ops| ==> !ops[i].Measure?
  }

  lemma {:induction false} NoMeasureHasNoMeasurements(ops: seq<Gate>)
    requires NoMeasure(ops)
    ensures Measurements(ops) == []
  {
    if ops != [] {
      NoMeasureHasNoMeasurements(ops[1..]);
    }
  }

  /** How many times the instruction `g` occurs in `ops`. */
  function Count(ops: seq<Gate>, g: Gate): nat {
    if ops == [] then 0 else (if ops[0] == g then 1 else 0) + Count(ops[1..], g)
  }

  lemma {:induction false} CountAppend(a: seq<Gate>, b: seq<Gate>, g: Gate)
    ensures Count(a + b, g) == Count(a, g) + Count(b, g)
  {
    if a == [] {
      assert a + b == b;
    } else {
      assert (a + b)[1..] == a[1..] + b;
      CountAppend(a[1..], b, g);
    }
  }

  /** How often `g` occurs in a two-instruction list. */
  lemma CountPair(a: Gate, b: Gate, g: Gate)
    ensures Count([a, b], g) == (if a == g then 1 else 0) + (if b == g then 1 else 0)
  {
    assert [a, b][1..] == [b];
    assert [b][1..] == [];
    assert Count([b], g) == (if b == g then 1 else 0) + Count([], g);
  }

  /** `block` written `k` times in a row, as a `for _ in range(k)` loop appends it. */
  function Repeat(block: seq<Gate>, k: nat): (r: seq<Gate>)
    ensures |r| == k * |block|
  {
    if k == 0 then [] else Repeat(block, k - 1) + block
  }

  lemma {:induction false} CountRepeat(block: seq<Gate>, k: nat, g: Gate)
    ensures Count(Repeat(block, k), g) == k * Count(block, g)
  {
    if k > 0 {
      CountRepeat(block, k - 1, g);
      CountAppend(Repeat(block, k - 1), block, g);
    }
  }

  lemma {:induction false} RepeatAt(block: seq<Gate>, k: nat, i: nat, j: nat)
    requires i < k && j < |block|
    ensures i * |block| + j < |Repeat(block, k)|
    ensures Repeat(block, k)[i * |block| + j] == block[j]
  {
    if i < k - 1 {
      RepeatAt(block, k - 1, i, j);
    } else {
      assert i * |block| + j == |Repeat(block, k - 1)| + j;
    }
  }

  lemma {:induction false} AllFitAppend(a: seq<Gate>, b: seq<Gate>, nq: nat, nc: nat)
    requires AllFit(a, nq, nc) && AllFit(b, nq, nc)
    ensures AllFit(a + b, nq, nc)
  {
    forall i | 0 <= i < |a + b| ensures Fits((a + b)[i], nq, nc) {
      if i < |a| { assert (a + b)[i] == a[i]; } else { assert (a + b)[i] == b[i - |a|]; }
    }
  }

  lemma {:induction false} AllFitRepeat(block: seq<Gate>, k: nat, nq: nat, nc: nat)
    requires AllFit(block, nq, nc)
    ensures AllFit(Repeat(block, k), nq, nc)
  {
    if k > 0 {
      AllFitRepeat(block, k - 1, nq, nc);
      AllFitAppend(Repeat(block, k - 1), block, nq, nc);
    }
  }

  /**
   * A circuit under construction.  The register sizes are fixed when the
   * circuit is created; the instruction list only grows.
   */
  class QuantumCircuit {
    const numQubits: nat
    const numClbits: nat
    var ops: seq<Gate>

    predicate Valid()
      reads this
    {
      AllFit(ops, numQubits, numClbits)
    }

    /** `QuantumCircuit(qubits, clbits)`: an empty circuit. */
    constructor (qubits: nat, clbits: nat)
      ensures numQubits == qubits && numClbits == clbits
      ensures ops == [] && Valid()
    {
      numQubits, numClbits := qubits, clbits;
      ops := [];
    }

    /** `qc.x(q)`, `qc.cx(c, t)`, `qc.measure(q, c)`, ...: append one instruction. */
    method Append(g: Gate)
      requires Valid() && Fits(g, numQubits, numClbits)
      modifies this
      ensures ops == old(ops) + [g] && Valid()
    {
      ops := ops + [g];
    }

    /** Consecutive appends `qc.h(0); qc.h(1); ...`: the instructions of `gs`, one after another. */
    method AppendAll(gs: seq<Gate>)
      requires Valid() && AllFit(gs, numQubits, numClbits)
      modifies this
      ensures ops == old(ops) + gs && Valid()
    {
      var i := 0;
      while i < |gs|
        invariant 0 <= i <= |gs|
        invariant ops == old(ops) + gs[..i] && Valid()
      {
        assert gs[..i + 1] == gs[..i] + [gs[i]];
        Append(gs[i]);
        i := i + 1;
      }
      assert gs[..i] == gs;
    }

    /** `for _ in range(k):` followed by the appends of `block`. */
    method AppendRepeat(block: seq<Gate>, k: nat)
      requires Valid() && AllFit(block, numQubits, numClbits)
      modifies this
      ensures ops == old(ops) + Repeat(block, k) && Valid()
    {
      for i := 0 to k
        invariant ops == old(ops) + Repeat(block, i) && Valid()
      {
        AppendAll(block);
      }
    }

    /**
     * `qc.compose(other, inplace=True)` with the default wiring: the other
     * circuit's qubit i and clbit j become this circuit's qubit i and clbit j,
     * which Qiskit only allows when the other circuit is not wider.
     */
    method Compose(other: QuantumCircuit)
      requires Valid() && other.Valid()
      requires other.numQubits <= numQubits && other.numClbits <= numClbits
      modifies this
      ensures ops == old(ops) + old(other.ops) && Valid()
    {
      assert AllFit(other.ops, numQubits, numClbits) by {
        forall i | 0 <= i < |other.ops| ensures Fits(other.ops[i], numQubits, numClbits) {
          assert Fits(other.ops[i], other.numQubits, other.numClbits);
        }
      }
      AllFitAppend(ops, other.ops, numQubits, numClbits);
      ops := ops + other.ops;
    }
  }
}
