/**
 * Computational-basis semantics of the classical reversible gates X, CX and
 * CCX.  On a basis state |b0 b1 ... b(n-1)> (qubit i holds bit bi) each of
 * them maps the state to another basis state, so a circuit made only of
 * them is a bit-level program.  Every other gate is left without meaning.
 */
module Reversible {
  import opened Circuits

  predicate IsClassical(g: Gate) {
    g.X? || g.CX? || g.CCX?
  }

  /** Every instruction is X, CX or CCX and fits an n-qubit register. */
  predicate ClassicalOn(ops: seq<Gate>, n: nat) {
    forall i :: 0 <= i < |ops| ==> IsClassical(ops[i]) && Fits(ops[i], n, 0)
  }

  function Step(g: Gate, s: seq<bool>): (t: seq<bool>)
    requires IsClassical(g) && Fits(g, |s|, 0)
    ensures |t| == |s|
  {
    var qs := Qubits(g);
    assert forall i :: 0 <= i < |qs| ==> qs[i] < |s|;
    match g
    case X(q) =>
      assert qs[0] == q;
      s[q := !s[q]]
    case CX(c, t) =>
      assert qs[0] == c && qs[1] == t;
      if s[c] then s[t := !s[t]] else s
    case CCX(a, b, t) =>
      assert qs[0] == a && qs[1] == b && qs[2] == t;
      if s[a] && s[b] then s[t := !s[t]] else s
  }

  /** The basis state reached by running `ops` from basis state `s`. */
  function Run(ops: seq<Gate>, s: seq<bool>): (t: seq<bool>)
    requires ClassicalOn(ops, |s|)
    ensures |t| == |s|
    decreases |ops|
  {
    if ops == [] then s else Run(ops[1..], Step(ops[0], s))
  }

  lemma {:induction false} ClassicalOnAppend(a: seq<Gate>, b: seq<Gate>, n: nat)
    ensures ClassicalOn(a + b, n) <==> ClassicalOn(a, n) && ClassicalOn(b, n)
  {
    if ClassicalOn(a + b, n) {
      forall i | 0 <= i < |a| ensures IsClassical(a[i]) && Fits(a[i], n, 0) {
        assert a[i] == (a + b)[i];
      }
      forall i | 0 <= i < |b| ensures IsClassical(b[i]) && Fits(b[i], n, 0) {
        assert b[i] == (a + b)[|a| + i];
      }
    }
    if ClassicalOn(a, n) && ClassicalOn(b, n) {
      forall i | 0 <= i < |a + b| ensures IsClassical((a + b)[i]) && Fits((a + b)[i], n, 0) {
        if i < |a| { assert (a + b)[i] == a[i]; } else { assert (a + b)[i] == b[i - |a|]; }
      }
    }
  }

  /** Running a concatenation runs the two parts one after the other. */
  lemma {:induction false} RunAppend(a: seq<Gate>, b: seq<Gate>, s: seq<bool>)
    requires ClassicalOn(a, |s|) && ClassicalOn(b, |s|)
    ensures ClassicalOn(a + b, |s|)
    ensures Run(a + b, s) == Run(b, Run(a, s))
    decreases |a|
  {
    ClassicalOnAppend(a, b, |s|);
    if a != [] {
      assert (a + b)[1..] == a[1..] + b;
      assert ClassicalOn(a[1..], |s|);
      RunAppend(a[1..], b, Step(a[0], s));
    } else {
      assert a + b == b;
    }
  }

  /** Running one instruction is one step. */
  lemma RunSingle(g: Gate, s: seq<bool>)
    requires IsClassical(g) && Fits(g, |s|, 0)
    ensures ClassicalOn([g], |s|) && Run([g], s) == Step(g, s)
  {
    assert [g][1..] == [];
  }

  lemma RunThen(a: seq<Gate>, b: seq<Gate>, s: seq<bool>, m: seq<bool>, t: seq<bool>)
    requires ClassicalOn(a, |s|) && ClassicalOn(b, |s|)
    requires Run(a, s) == m && Run(b, m) == t
    ensures ClassicalOn(a + b, |s|) && Run(a + b, s) == t
  {
    RunAppend(a, b, s);
  }

  /** The index of the two-bit input (a, b), a most significant. */
  function Idx(a: bool, b: bool): nat {
    (if a then 2 else 0) + (if b then 1 else 0)
  }

  lemma IndexOfTwo(x: seq<bool>)
    requires |x| == 2
    ensures x == [x[0], x[1]] && Index(x) == Idx(x[0], x[1])
  {
    assert x[1..][1..] == [];
  }

  /** The index of the three-bit input (a, b, c), a most significant. */
  function Idx3(a: bool, b: bool, c: bool): nat {
    (if a then 4 else 0) + Idx(b, c)
  }

  lemma IndexOfThree(x: seq<bool>)
    requires |x| == 3
    ensures x == [x[0], x[1], x[2]] && Index(x) == Idx3(x[0], x[1], x[2])
  {
    IndexOfTwo(x[1..]);
  }

  lemma CountTrueOfFour(f: seq<bool>)
    requires |f| == 4
    ensures CountTrue(f) == (if f[0] then 1 else 0) + (if f[1] then 1 else 0)
                          + (if f[2] then 1 else 0) + (if f[3] then 1 else 0)
  {
    assert f[3..][1..] == [];
    assert CountTrue(f[3..]) == (if f[3] then 1 else 0);
    assert f[2..][1..] == f[3..];
    assert CountTrue(f[2..]) == (if f[2] then 1 else 0) + (if f[3] then 1 else 0);
    assert f[1..][1..] == f[2..];
  }

  lemma CountTrueOfEight(f: seq<bool>)
    requires |f| == 8
    ensures CountTrue(f) == CountTrue(f[..4]) + CountTrue(f[4..])
  {
    assert f == f[..4] + f[4..];
    CountTrueAppend(f[..4], f[4..]);
  }

  /** Two instructions run one after the other. */
  lemma RunTwo(g1: Gate, g2: Gate, s: seq<bool>)
    requires IsClassical(g1) && Fits(g1, |s|, 0) && IsClassical(g2) && Fits(g2, |s|, 0)
    ensures ClassicalOn([g1, g2], |s|) && Run([g1, g2], s) == Step(g2, Step(g1, s))
  {
    assert [g1, g2][1..] == [g2];
    RunSingle(g2, Step(g1, s));
  }

  /** A circuit of X, CX and CCX holds no measurement. */
  lemma ClassicalHasNoMeasure(ops: seq<Gate>, n: nat)
    requires ClassicalOn(ops, n)
    ensures NoMeasure(ops)
  {
  }

  lemma IndexOfOne(x: seq<bool>)
    requires |x| == 1
    ensures x == [x[0]] && Index(x) == if x[0] then 1 else 0
  {
    assert x[1..] == [];
  }

  /** The bits of x as a number, first bit most significant. */
  function Index(x: seq<bool>): (i: nat)
    ensures i < Pow2(|x|)
  {
    if x == [] then 0 else (if x[0] then Pow2(|x| - 1) else 0) + Index(x[1..])
  }

  function CountTrue(f: seq<bool>): nat {
    if f == [] then 0 else (if f[0] then 1 else 0) + CountTrue(f[1..])
  }

  lemma {:induction false} CountTrueAppend(a: seq<bool>, b: seq<bool>)
    ensures CountTrue(a + b) == CountTrue(a) + CountTrue(b)
  {
    if a == [] {
      assert a + b == b;
    } else {
      assert (a + b)[1..] == a[1..] + b;
      CountTrueAppend(a[1..], b);
    }
  }

  /**
   * `ops` is the standard oracle U_f of the Boolean function with truth table
   * `f` on n input qubits q0..q(n-1) and output qubit q(n):
   * U_f |x, y> = |x, y XOR f(x)>.
   */
  ghost predicate Realises(ops: seq<Gate>, n: nat, f: seq<bool>)
    requires ClassicalOn(ops, n + 1) && |f| == Pow2(n)
  {
    forall x: seq<bool>, y: bool :: |x| == n ==>
      Run(ops, x + [y]) == x + [y != f[Index(x)]]
  }

  /** An oracle never changes its input qubits. */
  lemma InputsPreserved(ops: seq<Gate>, n: nat, f: seq<bool>, x: seq<bool>, y: bool)
    requires ClassicalOn(ops, n + 1) && |f| == Pow2(n) && Realises(ops, n, f)
    requires |x| == n
    ensures Run(ops, x + [y])[..n] == x
  {
    assert Run(ops, x + [y]) == x + [y != f[Index(x)]];
  }

  /** A constant function is 1 on none or all of its 2^n inputs. */
  predicate IsConstantFunction(f: seq<bool>) {
    CountTrue(f) == 0 || CountTrue(f) == |f|
  }

  /** A balanced function is 1 on exactly half of its inputs. */
  predicate IsBalancedFunction(f: seq<bool>) {
    2 * CountTrue(f) == |f|
  }
}
