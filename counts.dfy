/**
 * Measurement counts as the scripts receive them from `get_counts()`: a
 * Python dict from bit-string to number of shots.  Python dicts keep
 * insertion order and `max` over `counts.items()` depends on it, so the
 * dict is an ordered list of entries with distinct keys.
 */
module Counts {

  datatype Entry = Entry(key: string, count: nat)

  type Counts = seq<Entry>

  /** `key in counts` */
  predicate HasKey(c: Counts, key: string) {
    c != [] && (c[0].key == key || HasKey(c[1..], key))
  }

  /** No key appears twice, as in any dict. */
  predicate Distinct(c: Counts) {
    c == [] || (!HasKey(c[1..], c[0].key) && Distinct(c[1..]))
  }

  lemma {:induction false} HasKeyAt(c: Counts, key: string)
    ensures HasKey(c, key) <==> exists i :: 0 <= i < |c| && c[i].key == key
  {
    if c != [] {
      HasKeyAt(c[1..], key);
      if HasKey(c[1..], key) {
        var i :| 0 <= i < |c[1..]| && c[1..][i].key == key;
        assert c[i + 1].key == key;
      }
      if exists i :: 0 <= i < |c| && c[i].key == key {
        var i :| 0 <= i < |c| && c[i].key == key;
        if i > 0 { assert c[1..][i - 1].key == key; }
      }
    }
  }

  /** `counts.get(key, 0)`: a missing key counts as 0. */
  function Get(c: Counts, key: string): (n: nat)
    ensures !HasKey(c, key) ==> n == 0
  {
    if c == [] then 0
    else if c[0].key == key then c[0].count
    else Get(c[1..], key)
  }

  /** In a dict, the count stored at position i is what `counts[key]` gives. */
  lemma {:induction false} GetAt(c: Counts, i: nat)
    requires Distinct(c) && i < |c|
    ensures Get(c, c[i].key) == c[i].count
  {
    if i > 0 {
      GetAt(c[1..], i - 1);
      HasKeyAt(c[1..], c[0].key);
      assert c[1..][i - 1] == c[i];
    }
  }

  /** Two positions of a dict hold two different keys. */
  lemma {:induction false} DistinctKeys(c: Counts, i: nat, j: nat)
    requires Distinct(c) && i < |c| && j < |c| && i != j
    ensures c[i].key != c[j].key
  {
    if i == 0 {
      HasKeyAt(c[1..], c[0].key);
      assert c[1..][j - 1] == c[j];
    } else if j == 0 {
      HasKeyAt(c[1..], c[0].key);
      assert c[1..][i - 1] == c[i];
    } else {
      DistinctKeys(c[1..], i - 1, j - 1);
    }
  }

  lemma {:induction false} HasKeySnoc(c: Counts, e: Entry, key: string)
    ensures HasKey(c + [e], key) <==> HasKey(c, key) || e.key == key
  {
    if c != [] {
      assert (c + [e])[1..] == c[1..] + [e];
      HasKeySnoc(c[1..], e, key);
    }
  }

  /** Looking a key up in a dict with one more entry at the end. */
  lemma {:induction false} GetSnoc(c: Counts, e: Entry, key: string)
    ensures Get(c + [e], key) == if HasKey(c, key) then Get(c, key) else if e.key == key then e.count else 0
  {
    if c != [] {
      assert (c + [e])[1..] == c[1..] + [e];
      GetSnoc(c[1..], e, key);
    }
  }

  lemma {:induction false} DistinctSnoc(c: Counts, e: Entry)
    ensures Distinct(c + [e]) <==> Distinct(c) && !HasKey(c, e.key)
  {
    if c != [] {
      assert (c + [e])[1..] == c[1..] + [e];
      DistinctSnoc(c[1..], e);
      HasKeySnoc(c[1..], e, c[0].key);
    }
  }

  lemma {:induction false} TotalSnoc(c: Counts, e: Entry)
    ensures Total(c + [e]) == Total(c) + e.count
  {
    if c != [] {
      assert (c + [e])[1..] == c[1..] + [e];
      TotalSnoc(c[1..], e);
    }
  }

  /** `sum(counts.values())` */
  function Total(c: Counts): nat {
    if c == [] then 0 else c[0].count + Total(c[1..])
  }

  /** The shots that landed on any key other than `key`. */
  function Others(c: Counts, key: string): nat {
    if c == [] then 0 else (if c[0].key == key then 0 else c[0].count) + Others(c[1..], key)
  }

  lemma {:induction false} TotalSplit(c: Counts, key: string)
    requires Distinct(c)
    ensures Total(c) == Get(c, key) + Others(c, key)
  {
    if c != [] {
      TotalSplit(c[1..], key);
      if c[0].key == key {
        OthersOfAbsent(c[1..], key);
      }
    }
  }

  lemma {:induction false} OthersOfAbsent(c: Counts, key: string)
    requires !HasKey(c, key)
    ensures Others(c, key) == Total(c)
  {
    if c != [] {
      OthersOfAbsent(c[1..], key);
    }
  }

  lemma {:induction false} OthersZero(c: Counts, key: string)
    ensures Others(c, key) == 0 <==> forall i :: 0 <= i < |c| && c[i].key != key ==> c[i].count == 0
  {
    if c != [] {
      OthersZero(c[1..], key);
      assert forall i :: 1 <= i < |c| ==> c[i] == c[1..][i - 1];
    }
  }

  /**
   * All shots landed on `key` exactly when every other key has count 0:
   * the counts of a run with `shots` shots add up to `shots`.
   */
  lemma AllShotsOn(c: Counts, key: string)
    requires Distinct(c)
    ensures Get(c, key) == Total(c) <==> forall i :: 0 <= i < |c| && c[i].key != key ==> c[i].count == 0
  {
    TotalSplit(c, key);
    OthersZero(c, key);
  }

  lemma {:induction false} GetBelowTotal(c: Counts, key: string)
    ensures Get(c, key) <= Total(c)
  {
    if c != [] {
      GetBelowTotal(c[1..], key);
    }
  }

  /** Two different keys never share a shot. */
  lemma {:induction false} GetPairBelowTotal(c: Counts, a: string, b: string)
    requires Distinct(c) && a != b
    ensures Get(c, a) + Get(c, b) <= Total(c)
  {
    if c != [] {
      GetPairBelowTotal(c[1..], a, b);
      if c[0].key == a {
        GetBelowTotal(c[1..], b);
        assert !HasKey(c[1..], a);
      } else if c[0].key == b {
        GetBelowTotal(c[1..], a);
        assert !HasKey(c[1..], b);
      }
    }
  }

  /** Three different keys never share a shot. */
  lemma {:induction false} GetTripleBelowTotal(c: Counts, a: string, b: string, d: string)
    requires Distinct(c) && a != b && b != d && a != d
    ensures Get(c, a) + Get(c, b) + Get(c, d) <= Total(c)
  {
    if c != [] {
      GetTripleBelowTotal(c[1..], a, b, d);
      if c[0].key == a {
        GetPairBelowTotal(c[1..], b, d);
        assert !HasKey(c[1..], a);
      } else if c[0].key == b {
        GetPairBelowTotal(c[1..], a, d);
        assert !HasKey(c[1..], b);
      } else if c[0].key == d {
        GetPairBelowTotal(c[1..], a, b);
        assert !HasKey(c[1..], d);
      }
    }
  }

  /**
   * `counts[key] = n`: an existing key keeps its position and takes the new
   * value; a new key goes to the end.
   */
  function Put(c: Counts, key: string, n: nat): (r: Counts)
    ensures HasKey(c, key) ==> |r| == |c|
    ensures !HasKey(c, key) ==> r == c + [Entry(key, n)]
  {
    if c == [] then [Entry(key, n)]
    else if c[0].key == key then [Entry(key, n)] + c[1..]
    else [c[0]] + Put(c[1..], key, n)
  }

  lemma {:induction false} PutGet(c: Counts, key: string, n: nat, k: string)
    ensures Get(Put(c, key, n), k) == if k == key then n else Get(c, k)
    ensures HasKey(Put(c, key, n), k) <==> k == key || HasKey(c, k)
  {
    if c != [] && c[0].key != key {
      PutGet(c[1..], key, n, k);
    }
  }

  lemma {:induction false} PutDistinct(c: Counts, key: string, n: nat)
    requires Distinct(c)
    ensures Distinct(Put(c, key, n))
  {
    if c != [] && c[0].key != key {
      PutDistinct(c[1..], key, n);
      PutGet(c[1..], key, n, c[0].key);
    }
  }

  lemma {:induction false} PutTotal(c: Counts, key: string, n: nat)
    requires Distinct(c)
    ensures Total(Put(c, key, n)) + Get(c, key) == Total(c) + n
  {
    if c != [] {
      if c[0].key == key {
        assert Put(c, key, n)[1..] == c[1..];
      } else {
        PutTotal(c[1..], key, n);
        assert Put(c, key, n)[1..] == Put(c[1..], key, n);
      }
    }
  }
}
