/**
 * Truth tables of f: {0,1}^2 -> {0,1} as Python lists of four ints, the
 * random constant and balanced tables the Deutsch-Jozsa experiments draw,
 * and their compilation into an oracle made of X, CX and CCX
 * (`oracle_from_truth_table`).
 */
module TruthTables {
  import opened Circuits
  import opened Reversible

  /** The list X = [(0,0), (0,1), (1,0), (1,1)]: table entry i is f(x0, x1) with i = 2*x0 + x1. */
  const Inputs: seq<(nat, nat)> := [(0, 0), (0, 1), (1, 0), (1, 1)]

  /** `all(v == table[0] for v in table)`: vacuously true of the empty list. */
  predicate IsConstant(table: seq<int>) {
    forall i :: 0 <= i < |table| ==> table[i] == table[0]
  }

  function Sum(t: seq<int>): int {
    if t == [] then 0 else t[0] + Sum(t[1..])
  }

  /** `sum(table) == 2` */
  predicate IsBalanced(table: seq<int>) {
    Sum(table) == 2
  }

  lemma SumOfFour(t: seq<int>)
    requires |t| == 4
    ensures Sum(t) == t[0] + t[1] + t[2] + t[3]
  {
    assert t[3..][1..] == [];
    assert Sum(t[3..]) == t[3];
    assert t[2..][1..] == t[3..];
    assert Sum(t[2..]) == t[2] + t[3];
    assert t[1..][1..] == t[2..];
    assert Sum(t[1..]) == t[1] + t[2] + t[3];
  }

  /** `random_constant_table` once `random.choice([0, 1])` has drawn v. */
  function RandomConstantTable(v: int): (t: seq<int>)
    requires v == 0 || v == 1
    ensures |t| == 4 && t[0] == v
    ensures IsConstant(t) && !IsBalanced(t)
  {
    var t := [v, v, v, v];
    SumOfFour(t);
    t
  }

  /** `random_balanced_table` once `random.sample(range(4), 2)` has drawn i and j. */
  function RandomBalancedTable(i: nat, j: nat): (t: seq<int>)
    requires i < 4 && j < 4 && i != j
    ensures |t| == 4
    ensures forall k :: 0 <= k < 4 ==> (t[k] == 1 <==> k == i || k == j) && (t[k] == 0 <==> k != i && k != j)
    ensures IsBalanced(t) && !IsConstant(t)
  {
    var t := seq(4, k requires 0 <= k < 4 => if k == i || k == j then 1 else 0);
    SumOfFour(t);
    assert !IsConstant(t) by {
      var one := if i == 0 then j else i;
      var zero := if 1 != i && 1 != j then 1 else if 2 != i && 2 != j then 2 else 3;
      assert t[one] == 1 && t[zero] == 0;
    }
    t
  }

  /** Does the oracle react to table entry i?  `zip` stops at the shorter list, and `if fx == 0: continue`. */
  predicate Fires(table: seq<int>, i: nat) {
    i < |table| && table[i] != 0
  }

  /** The Boolean function the oracle of `table` computes, indexed like the table. */
  function TruthFunction(table: seq<int>): (f: seq<bool>)
    ensures |f| == 4 && forall i :: 0 <= i < 4 ==> f[i] == Fires(table, i)
  {
    seq(4, i requires 0 <= i < 4 => Fires(table, i))
  }

  /** The gates for one input (x0, x1) with f(x0, x1) = 1: X on the 0-controls, CCX onto q2, undo. */
  function Block(x0: nat, x1: nat): seq<Gate> {
    MaybeX(x0 == 0, 0) + (MaybeX(x1 == 0, 1) + ([CCX(0, 1, 2)] + (MaybeX(x1 == 0, 1) + MaybeX(x0 == 0, 0))))
  }

  /** An optional X gate on qubit q. */
  function MaybeX(c: bool, q: nat): seq<Gate> {
    if c then [X(q)] else []
  }

  /** The oracle after the first k iterations of the loop over `zip(X, table)`. */
  function OracleGatesUpTo(table: seq<int>, k: nat): seq<Gate>
    requires k <= 4
  {
    if k == 0 then []
    else OracleGatesUpTo(table, k - 1)
         + (if Fires(table, k - 1) then Block(Inputs[k - 1].0, Inputs[k - 1].1) else [])
  }

  function OracleGates(table: seq<int>): seq<Gate> {
    OracleGatesUpTo(table, 4)
  }

  /** `oracle_from_truth_table(table)` */
  method OracleFromTruthTable(table: seq<int>) returns (qc: QuantumCircuit)
    ensures fresh(qc) && qc.numQubits == 3 && qc.numClbits == 0 && qc.Valid()
    ensures qc.ops == OracleGates(table)
  {
    qc := new QuantumCircuit(3, 0);
    var i := 0;
    while i < |Inputs| && i < |table|
      invariant 0 <= i <= 4
      invariant qc.numQubits == 3 && qc.numClbits == 0
      invariant qc.ops == OracleGatesUpTo(table, i) && qc.Valid()
    {
      var (x0, x1) := Inputs[i];
      var fx := table[i];
      if fx != 0 {
        AppendBlock(qc, x0, x1);
      }
      i := i + 1;
    }
    UpToPastTable(table, i);
  }

  /** The body of the loop for an input with f(x0, x1) = 1. */
  method AppendBlock(qc: QuantumCircuit, x0: nat, x1: nat)
    requires qc.Valid() && qc.numQubits == 3
    modifies qc
    ensures qc.Valid() && qc.ops == old(qc.ops) + Block(x0, x1)
  {
    if x0 == 0 { qc.Append(X(0)); }
    if x1 == 0 { qc.Append(X(1)); }
    qc.Append(CCX(0, 1, 2));
    if x1 == 0 { qc.Append(X(1)); }
    if x0 == 0 { qc.Append(X(0)); }
  }

  /** Entries past the end of the table add no gates. */
  lemma {:induction false} UpToPastTable(table: seq<int>, k: nat)
    requires k <= 4 && (k == 4 || k >= |table|)
    ensures OracleGatesUpTo(table, 4) == OracleGatesUpTo(table, k)
    decreases 4 - k
  {
    if k < 4 {
      UpToPastTable(table, k + 1);
    }
  }

  lemma BlockClassical(x0: nat, x1: nat)
    ensures ClassicalOn(Block(x0, x1), 3)
  {
  }

  lemma RunMaybeX(c: bool, q: nat, s: seq<bool>)
    requires q < |s|
    ensures ClassicalOn(MaybeX(c, q), |s|)
    ensures Run(MaybeX(c, q), s) == if c then s[q := !s[q]] else s
  {
    if c {
      assert MaybeX(c, q)[1..] == [];
    }
  }

  lemma RunToffoli(s: seq<bool>)
    requires |s| == 3
    ensures ClassicalOn([CCX(0, 1, 2)], 3)
    ensures Run([CCX(0, 1, 2)], s) == if s[0] && s[1] then s[2 := !s[2]] else s
  {
    assert [CCX(0, 1, 2)][1..] == [];
  }

  /** A block flips y exactly on its own input (x0, x1) and restores q0, q1. */
  lemma BlockRuns(x0: nat, x1: nat, a: bool, b: bool, y: bool)
    requires x0 <= 1 && x1 <= 1
    ensures ClassicalOn(Block(x0, x1), 3)
    ensures Run(Block(x0, x1), [a, b, y]) == [a, b, y != (a == (x0 == 1) && b == (x1 == 1))]
  {
    var b0 := MaybeX(x0 == 0, 0);
    var b1 := MaybeX(x1 == 0, 1);
    var mid := [CCX(0, 1, 2)];
    var hit := a == (x0 == 1) && b == (x1 == 1);
    var s0 := [a, b, y];
    var s1 := [a != (x0 == 0), b, y];
    var s2 := [a != (x0 == 0), b != (x1 == 0), y];
    var s3 := [a != (x0 == 0), b != (x1 == 0), y != hit];
    var s4 := [a != (x0 == 0), b, y != hit];
    var s5 := [a, b, y != hit];
    RunMaybeX(x0 == 0, 0, s0);
    RunMaybeX(x1 == 0, 1, s1);
    RunToffoli(s2);
    RunMaybeX(x1 == 0, 1, s3);
    RunMaybeX(x0 == 0, 0, s4);
    RunThen(b1, b0, s3, s4, s5);
    RunThen(mid, b1 + b0, s2, s3, s5);
    RunThen(b1, mid + (b1 + b0), s1, s2, s5);
    RunThen(b0, b1 + (mid + (b1 + b0)), s0, s1, s5);
  }

  lemma {:induction false} OracleUpToRuns(table: seq<int>, k: nat, a: bool, b: bool, y: bool)
    requires k <= 4
    ensures ClassicalOn(OracleGatesUpTo(table, k), 3)
    ensures Run(OracleGatesUpTo(table, k), [a, b, y])
         == [a, b, y != (Idx(a, b) < k && Fires(table, Idx(a, b)))]
  {
    if k > 0 {
      OracleUpToRuns(table, k - 1, a, b, y);
      var prev := OracleGatesUpTo(table, k - 1);
      var (x0, x1) := Inputs[k - 1];
      var blk := if Fires(table, k - 1) then Block(x0, x1) else [];
      var y' := y != (Idx(a, b) < k - 1 && Fires(table, Idx(a, b)));
      BlockRuns(x0, x1, a, b, y');
      RunAppend(prev, blk, [a, b, y]);
      assert (a == (x0 == 1) && b == (x1 == 1)) <==> Idx(a, b) == k - 1;
    }
  }

  lemma OracleRunsOn(table: seq<int>, x: seq<bool>, y: bool)
    requires |x| == 2
    ensures ClassicalOn(OracleGates(table), 3)
    ensures Run(OracleGates(table), x + [y]) == x + [y != TruthFunction(table)[Index(x)]]
  {
    IndexOfTwo(x);
    assert x + [y] == [x[0], x[1], y];
    OracleUpToRuns(table, 4, x[0], x[1], y);
  }

  /** `Uf |x, y> = |x, y XOR f(x)>` for the function the table describes. */
  lemma OracleRealises(table: seq<int>)
    ensures ClassicalOn(OracleGates(table), 3)
    ensures Realises(OracleGates(table), 2, TruthFunction(table))
  {
    OracleUpToRuns(table, 4, false, false, false);
    forall x: seq<bool>, y: bool | |x| == 2
      ensures Run(OracleGates(table), x + [y]) == x + [y != TruthFunction(table)[Index(x)]]
    {
      OracleRunsOn(table, x, y);
    }
  }

  /** One CCX per table entry the oracle reacts to. */
  lemma {:induction false} OracleToffoliCount(table: seq<int>, k: nat)
    requires k <= 4
    ensures Count(OracleGatesUpTo(table, k), CCX(0, 1, 2)) == CountTrue(TruthFunction(table)[..k])
  {
    if k > 0 {
      OracleToffoliCount(table, k - 1);
      var f := TruthFunction(table);
      var (x0, x1) := Inputs[k - 1];
      var blk := if Fires(table, k - 1) then Block(x0, x1) else [];
      CountAppend(OracleGatesUpTo(table, k - 1), blk, CCX(0, 1, 2));
      assert f[..k] == f[..k - 1] + [f[k - 1]];
      CountTrueAppend(f[..k - 1], [f[k - 1]]);
      if Fires(table, k - 1) {
        var b0 := MaybeX(x0 == 0, 0);
        var b1 := MaybeX(x1 == 0, 1);
        assert Block(x0, x1) == b0 + b1 + [CCX(0, 1, 2)] + b1 + b0;
        CountAppend(b0 + b1 + [CCX(0, 1, 2)] + b1, b0, CCX(0, 1, 2));
        CountAppend(b0 + b1 + [CCX(0, 1, 2)], b1, CCX(0, 1, 2));
        CountAppend(b0 + b1, [CCX(0, 1, 2)], CCX(0, 1, 2));
        CountAppend(b0, b1, CCX(0, 1, 2));
      }
    }
  }

  /** An all-zero table compiles to the empty circuit. */
  lemma {:induction false} ZeroTableEmptyOracle(table: seq<int>, k: nat)
    requires k <= 4
    requires forall i :: 0 <= i < |table| ==> table[i] == 0
    ensures OracleGatesUpTo(table, k) == []
  {
    if k > 0 {
      ZeroTableEmptyOracle(table, k - 1);
    }
  }

  /**
   * For a 0/1 table of four entries, the script's `is_constant` and
   * `is_balanced` agree with the Deutsch-Jozsa notions of the function the
   * compiled oracle computes.
   */
  lemma TableKinds(table: seq<int>)
    requires |table| == 4 && forall i :: 0 <= i < 4 ==> table[i] == 0 || table[i] == 1
    ensures IsConstant(table) <==> IsConstantFunction(TruthFunction(table))
    ensures IsBalanced(table) <==> IsBalancedFunction(TruthFunction(table))
  {
    var f := TruthFunction(table);
    SumOfFour(table);
    CountTrueOfFour(f);
    assert Sum(table) == CountTrue(f);
  }
}
