/**
 * The figures of merit the experiments compute from counts: a single
 * outcome's frequency, the Bell correlation P(00) + P(11), and the GHZ and
 * W populations.  A missing key counts as 0, as with `counts.get(key, 0)`.
 */
module Metrics {
  import opened Counts

  /** `counts.get(key, 0) / shots` */
  function Prob(c: Counts, key: string, shots: nat): (r: real)
    requires shots > 0
    ensures !HasKey(c, key) ==> r == 0.0
  {
    Get(c, key) as real / shots as real
  }

  /** A frequency lies in [0, 1] when the counts add up to `shots`. */
  lemma ProbBounds(c: Counts, key: string, shots: nat)
    requires shots > 0 && Total(c) == shots
    ensures 0.0 <= Prob(c, key, shots) <= 1.0
  {
    GetBelowTotal(c, key);
    FractionBounds(Get(c, key), shots);
  }

  /** `corr_rate` / `corr_metric` / `metric`: `(counts.get("00", 0) + counts.get("11", 0)) / shots` */
  function CorrRate(c: Counts, shots: nat): (r: real)
    requires shots > 0
    ensures !HasKey(c, "00") && !HasKey(c, "11") ==> r == 0.0
  {
    (Get(c, "00") + Get(c, "11")) as real / shots as real
  }

  /** The variant written `p00 + p11`, two separate divisions, is the same number. */
  lemma CorrRateAsSum(c: Counts, shots: nat)
    requires shots > 0
    ensures CorrRate(c, shots) == Prob(c, "00", shots) + Prob(c, "11", shots)
  {
  }

  /** The correlation lies in [0, 1] on a dict of `shots` shots, */
  lemma CorrRateBounds(c: Counts, shots: nat)
    requires Distinct(c) && shots > 0 && Total(c) == shots
    ensures 0.0 <= CorrRate(c, shots) <= 1.0
  {
    assert "00"[0] != "11"[0];
    GetPairBelowTotal(c, "00", "11");
    FractionBounds(Get(c, "00") + Get(c, "11"), shots);
  }

  /** `metric_ghz`: `(c000 + c111) / shots` */
  function MetricGhz(c: Counts, shots: nat): (r: real)
    requires shots > 0
    ensures !HasKey(c, "000") && !HasKey(c, "111") ==> r == 0.0
  {
    (Get(c, "000") + Get(c, "111")) as real / shots as real
  }

  /** `metric_w`: `(c001 + c010 + c100) / shots` */
  function MetricW(c: Counts, shots: nat): (r: real)
    requires shots > 0
    ensures !HasKey(c, "001") && !HasKey(c, "010") && !HasKey(c, "100") ==> r == 0.0
  {
    (Get(c, "001") + Get(c, "010") + Get(c, "100")) as real / shots as real
  }

  /** Both populations lie in [0, 1] on a dict of `shots` shots. */
  lemma MultipartiteMetricBounds(c: Counts, shots: nat)
    requires Distinct(c) && shots > 0 && Total(c) == shots
    ensures 0.0 <= MetricGhz(c, shots) <= 1.0
    ensures 0.0 <= MetricW(c, shots) <= 1.0
  {
    assert "000"[0] != "111"[0];
    GetPairBelowTotal(c, "000", "111");
    FractionBounds(Get(c, "000") + Get(c, "111"), shots);
    assert "001"[1] != "010"[1] && "010"[0] != "100"[0] && "001"[0] != "100"[0];
    GetTripleBelowTotal(c, "001", "010", "100");
    FractionBounds(Get(c, "001") + Get(c, "010") + Get(c, "100"), shots);
  }

  /** A part of the shots divided by the shots is a frequency. */
  lemma FractionBounds(part: nat, shots: nat)
    requires 0 < shots && part <= shots
    ensures 0.0 <= part as real / shots as real <= 1.0
  {
    assert part as real <= shots as real;
  }

  /** `counts.get("11", 0) / shots`: the success rate of the Grover search for |11>. */
  function GroverSuccess(c: Counts, shots: nat): (r: real)
    requires shots > 0
    ensures Total(c) == shots ==> 0.0 <= r <= 1.0
  {
    GetBelowTotal(c, "11");
    if Total(c) == shots then
      FractionBounds(Get(c, "11"), shots);
      Prob(c, "11", shots)
    else
      Prob(c, "11", shots)
  }
}
