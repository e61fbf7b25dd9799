/**
 * The decision rules that turn measurement counts into a verdict on the
 * oracle: the ideal Deutsch-Jozsa rule (all shots on the all-zero string),
 * the majority vote used under noise, and the Deutsch rule (the string "0"
 * occurs at all).
 */
module Classify {
  import opened Wrappers
  import opened Counts

  datatype Label = Constant | Balanced

  /** `"CONSTANT" if counts.get(key, 0) == shots else "BALANCED"` */
  function ClassifyExact(c: Counts, key: string, shots: nat): Label {
    if Get(c, key) == shots then Constant else Balanced
  }

  /** When the counts add up to `shots`, the exact rule says CONSTANT iff no shot landed elsewhere. */
  lemma ClassifyExactMeaning(c: Counts, key: string, shots: nat)
    requires Distinct(c) && Total(c) == shots
    ensures ClassifyExact(c, key, shots) == Constant
        <==> forall i :: 0 <= i < |c| && c[i].key != key ==> c[i].count == 0
  {
    AllShotsOn(c, key);
  }

  /** Entry j holds the largest count and every entry before it holds less. */
  predicate IsFirstMax(c: Counts, j: nat) {
    && j < |c|
    && (forall k :: 0 <= k < |c| ==> c[k].count <= c[j].count)
    && (forall k :: 0 <= k < j ==> c[k].count < c[j].count)
  }

  /** Python's `max` scanning from position i with `best` the winner so far: it only replaces on a strictly larger count. */
  function ArgMaxFrom(c: Counts, i: nat, best: nat): (j: nat)
    requires best < i <= |c|
    requires IsFirstMax(c[..i], best)
    ensures IsFirstMax(c, j)
    decreases |c| - i
  {
    if i == |c| then
      assert c[..i] == c;
      best
    else
      var next := if c[i].count > c[best].count then i else best;
      assert c[..i + 1] == c[..i] + [c[i]];
      ArgMaxFrom(c, i + 1, next)
  }

  /** `max(counts.items(), key=lambda kv: kv[1])[0]`; on an empty dict Python raises ValueError. */
  function MostCommon(c: Counts): (r: Result<string, string>)
    ensures c == [] <==> r.Failure?
    ensures r.Success? ==> exists j :: 0 <= j < |c| && IsFirstMax(c, j) && c[j].key == r.value
  {
    if c == [] then Failure("max() arg is an empty sequence")
    else
      var j := ArgMaxFrom(c, 1, 0);
      Success(c[j].key)
  }

  /** There is only one first maximum. */
  lemma FirstMaxUnique(c: Counts, i: nat, j: nat)
    requires IsFirstMax(c, i) && IsFirstMax(c, j)
    ensures i == j
  {
    assert c[i].count <= c[j].count && c[j].count <= c[i].count;
  }

  /** `"CONSTANT" if most_common == key else "BALANCED"`, the error of `max` passed on. */
  function ClassifyMajority(c: Counts, key: string): (r: Result<Label, string>)
    ensures c == [] <==> r.Failure?
  {
    match MostCommon(c)
    case Failure(e) => Failure(e)
    case Success(k) => Success(if k == key then Constant else Balanced)
  }

  /** A key holding strictly more shots than every other key wins the vote. */
  lemma MajorityWhenAhead(c: Counts, key: string, j: nat)
    requires Distinct(c) && j < |c| && c[j].key == key
    requires forall k :: 0 <= k < |c| && k != j ==> c[k].count < c[j].count
    ensures ClassifyMajority(c, key) == Success(Constant)
  {
    var r := MostCommon(c);
    var m :| 0 <= m < |c| && IsFirstMax(c, m) && c[m].key == r.value;
    FirstMaxUnique(c, m, j);
    assert r == Success(key);
  }

  /** A key that some other entry outnumbers never wins the vote. */
  lemma MajorityWhenOutnumbered(c: Counts, key: string, i: nat)
    requires Distinct(c) && i < |c| && c[i].count > Get(c, key)
    ensures ClassifyMajority(c, key) == Success(Balanced)
  {
    var r := MostCommon(c);
    var m :| 0 <= m < |c| && IsFirstMax(c, m) && c[m].key == r.value;
    if c[m].key == key {
      GetAt(c, m);
      assert false;
    }
    assert r.value != key;
  }

  /** Ties go to the entry that comes first in the dict. */
  lemma MajorityTieGoesFirst(c: Counts, i: nat, j: nat)
    requires Distinct(c) && i < j < |c| && c[i].count == c[j].count
    requires forall k :: 0 <= k < |c| ==> c[k].count <= c[i].count
    ensures MostCommon(c) != Success(c[j].key)
  {
    var r := MostCommon(c);
    var m :| 0 <= m < |c| && IsFirstMax(c, m) && c[m].key == r.value;
    if m > i {
      assert false;
    }
    DistinctKeys(c, m, j);
  }

  /** In an ideal run (every shot on `key`) the majority vote agrees with the exact rule. */
  lemma MajorityAgreesWhenExact(c: Counts, key: string, shots: nat)
    requires Distinct(c) && Total(c) == shots && shots > 0
    requires ClassifyExact(c, key, shots) == Constant
    ensures ClassifyMajority(c, key) == Success(Constant)
  {
    HasKeyAt(c, key);
    var j :| 0 <= j < |c| && c[j].key == key;
    GetAt(c, j);
    ClassifyExactMeaning(c, key, shots);
    forall k | 0 <= k < |c| && k != j
      ensures c[k].count < c[j].count
    {
      DistinctKeys(c, j, k);
    }
    MajorityWhenAhead(c, key, j);
  }

  /** `"CONSTANT" if key in counts else "BALANCED"` */
  function ClassifyByPresence(c: Counts, key: string): Label {
    if HasKey(c, key) then Constant else Balanced
  }

  /** Qiskit's counts only hold outcomes that occurred. */
  predicate Positive(c: Counts) {
    forall i :: 0 <= i < |c| ==> c[i].count > 0
  }

  /** On counts of occurred outcomes, the presence rule says CONSTANT iff some shot gave `key`. */
  lemma ClassifyByPresenceMeaning(c: Counts, key: string)
    requires Distinct(c) && Positive(c)
    ensures ClassifyByPresence(c, key) == Constant <==> Get(c, key) > 0
  {
    HasKeyAt(c, key);
    if HasKey(c, key) {
      var j :| 0 <= j < |c| && c[j].key == key;
      GetAt(c, j);
    }
  }
}
