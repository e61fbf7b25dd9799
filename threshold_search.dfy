/**
 * Coarse-to-fine search for the largest noise level whose score (Bell
 * correlation, or Deutsch-Jozsa accuracy) still meets a target: score a
 * coarse grid, take the largest grid point that passes, clamp a window of
 * +-0.05 around it to [0, 0.5], and walk that window in steps of 0.01.
 *
 * The evaluator is a parameter `eval(n, p)`: the score of the n-th
 * evaluation in the run, at noise level p.  Each evaluation samples afresh,
 * so two evaluations at the same p may differ.  Noise levels are exact reals.
 */
module ThresholdSearch {
  import opened Wrappers

  const CoarseGrid: seq<real> := [0.00, 0.05, 0.10, 0.15, 0.20, 0.25, 0.30, 0.35, 0.40]
  const Step: real := 0.01
  const Slack: real := 0.000000001
  const Window: real := 0.05
  const MaxP: real := 0.5

  /** The n-th refinement point `low + n * step`. */
  function Point(low: real, n: nat): real {
    low + n as real * Step
  }

  /** How many points `p = low, low + step, ...` satisfy `p <= high + 1e-9`. */
  function NumPoints(low: real, high: real): (r: nat)
    ensures forall n: nat :: n < r <==> Point(low, n) <= high + Slack
  {
    if low > high + Slack then 0
    else
      var k := ((high + Slack - low) / Step).Floor;
      assert forall n: nat :: n <= k <==> Point(low, n) <= high + Slack;
      k + 1
  }

  /** The score the refinement loop sees at its n-th point. */
  function RefineScore(eval: (nat, real) -> real, call0: nat, low: real, n: nat): real {
    eval(call0 + n, Point(low, n))
  }

  /** Whether the refinement takes its n-th point: the score meets the target and the point is not below the start. */
  predicate Takes(eval: (nat, real) -> real, call0: nat, low: real, initP: real, target: real, n: nat) {
    RefineScore(eval, call0, low, n) >= target && Point(low, n) >= initP
  }

  /**
   * After the first `count` points: the last point taken and its score, or
   * the starting pair if none was taken.
   */
  ghost predicate RefineOutcome(eval: (nat, real) -> real, call0: nat, low: real, initP: real, initScore: real,
                                target: real, count: nat, bestP: real, bestScore: real) {
    || (exists j :: 0 <= j < count && Takes(eval, call0, low, initP, target, j) &&
         bestP == Point(low, j) && bestScore == RefineScore(eval, call0, low, j) &&
         forall k :: j < k < count ==> !Takes(eval, call0, low, initP, target, k))
    || ((forall j :: 0 <= j < count ==> !Takes(eval, call0, low, initP, target, j)) &&
         bestP == initP && bestScore == initScore)
  }

  /**
   * The refinement loop: `p = low; while p <= high + 1e-9: score = eval(p);
   * if score >= target and p >= best_p: best_p, best_score = p, score;
   * p += step`, starting from (initP, initScore).
   */
  method Refine(low: real, high: real, initP: real, initScore: real, target: real,
                eval: (nat, real) -> real, call0: nat)
    returns (bestP: real, bestScore: real)
    ensures RefineOutcome(eval, call0, low, initP, initScore, target, NumPoints(low, high), bestP, bestScore)
    ensures bestP >= initP
    ensures initScore >= target ==> bestScore >= target
    ensures forall n :: 0 <= n < NumPoints(low, high) && Takes(eval, call0, low, initP, target, n) ==> Point(low, n) <= bestP
  {
    bestP, bestScore := initP, initScore;
    var p := low;
    var n: nat := 0;
    while p <= high + Slack
      invariant p == Point(low, n) && n <= NumPoints(low, high)
      invariant RefineOutcome(eval, call0, low, initP, initScore, target, n, bestP, bestScore)
      invariant bestP >= initP
      invariant initScore >= target ==> bestScore >= target
      invariant forall k :: 0 <= k < n && Takes(eval, call0, low, initP, target, k) ==> Point(low, k) <= bestP
      invariant bestP != initP ==> bestP < p
      decreases NumPoints(low, high) - n
    {
      var score := eval(call0 + n, p);
      if score >= target && p >= bestP {
        bestP, bestScore := p, score;
        assert Takes(eval, call0, low, initP, target, n);
      } else {
        assert !Takes(eval, call0, low, initP, target, n);
      }
      p := p + Step;
      n := n + 1;
    }
  }

  /** `low = max(0.0, best - 0.05)`, `high = min(0.5, best + 0.05)` */
  function Clamp(best: real): (r: (real, real))
    ensures 0.0 <= r.0 && r.1 <= MaxP
    ensures 0.0 <= best <= MaxP ==> r.0 <= best <= r.1
    ensures best - Window <= r.0 && r.1 <= best + Window
  {
    (if best - Window > 0.0 then best - Window else 0.0, if best + Window < MaxP then best + Window else MaxP)
  }

  /** The coarse scores, one per grid point: `results.append((p, eval(p)))`. */
  method CoarseResults(grid: seq<real>, eval: (nat, real) -> real) returns (results: seq<(real, real)>)
    ensures |results| == |grid|
    ensures forall i :: 0 <= i < |grid| ==> results[i] == (grid[i], eval(i, grid[i]))
  {
    results := [];
    for i := 0 to |grid|
      invariant |results| == i
      invariant forall j :: 0 <= j < i ==> results[j] == (grid[j], eval(j, grid[j]))
    {
      results := results + [(grid[i], eval(i, grid[i]))];
    }
  }

  /** `[p for p, acc in results if acc >= target]` */
  function Candidates(results: seq<(real, real)>, target: real): (r: seq<real>)
    ensures |r| <= |results|
  {
    if results == [] then []
    else (if results[0].1 >= target then [results[0].0] else []) + Candidates(results[1..], target)
  }

  lemma {:induction false} CandidatesMembers(results: seq<(real, real)>, target: real, x: real)
    ensures x in Candidates(results, target) <==> exists i :: 0 <= i < |results| && results[i] == (x, results[i].1) && results[i].1 >= target
  {
    if results != [] {
      CandidatesMembers(results[1..], target, x);
      if x in Candidates(results[1..], target) {
        var i :| 0 <= i < |results[1..]| && results[1..][i] == (x, results[1..][i].1) && results[1..][i].1 >= target;
        assert results[i + 1] == results[1..][i];
      }
      if exists i :: 0 <= i < |results| && results[i] == (x, results[i].1) && results[i].1 >= target {
        var i :| 0 <= i < |results| && results[i] == (x, results[i].1) && results[i].1 >= target;
        if i > 0 {
          assert results[1..][i - 1] == results[i];
        }
      }
    }
  }

  /** `max(xs)` */
  function Max(xs: seq<real>): (m: real)
    requires xs != []
    ensures m in xs && forall x :: x in xs ==> x <= m
  {
    if |xs| == 1 then xs[0]
    else
      var rest := Max(xs[1..]);
      assert forall x :: x in xs ==> x == xs[0] || x in xs[1..];
      if xs[0] >= rest then xs[0] else rest
  }

  /**
   * The 07_agentic coarse scan: `for p in grid: if eval(p) >= target: best = (p, score)`.
   * The outcome is the last grid point that passes, or None.
   */
  method CoarseScan(grid: seq<real>, target: real, eval: (nat, real) -> real) returns (best: Option<(real, real)>)
    ensures best.None? <==> forall i :: 0 <= i < |grid| ==> eval(i, grid[i]) < target
    ensures best.Some? ==> exists j :: (0 <= j < |grid| && eval(j, grid[j]) >= target &&
      best.value == (grid[j], eval(j, grid[j])) && forall k :: j < k < |grid| ==> eval(k, grid[k]) < target)
  {
    best := None;
    for i := 0 to |grid|
      invariant best.None? <==> forall k :: 0 <= k < i ==> eval(k, grid[k]) < target
      invariant best.Some? ==> exists j :: (0 <= j < i && eval(j, grid[j]) >= target &&
        best.value == (grid[j], eval(j, grid[j])) && forall k :: j < k < i ==> eval(k, grid[k]) < target)
    {
      var c := eval(i, grid[i]);
      if c >= target {
        best := Some((grid[i], c));
      }
    }
  }

  predicate Ascending(grid: seq<real>) {
    forall i, j :: 0 <= i < j < |grid| ==> grid[i] < grid[j]
  }

  /**
   * On an ascending grid the two coarse rules agree: the last passing grid
   * point is the maximum of the passing points.
   */
  lemma LastPassingIsMax(grid: seq<real>, target: real, eval: (nat, real) -> real, j: nat)
    requires Ascending(grid) && j < |grid| && eval(j, grid[j]) >= target
    requires forall k :: j < k < |grid| ==> eval(k, grid[k]) < target
    ensures var results := seq(|grid|, i requires 0 <= i < |grid| => (grid[i], eval(i, grid[i])));
      Candidates(results, target) != [] && Max(Candidates(results, target)) == grid[j]
  {
    var results := seq(|grid|, i requires 0 <= i < |grid| => (grid[i], eval(i, grid[i])));
    var cands := Candidates(results, target);
    CandidatesMembers(results, target, grid[j]);
    assert results[j] == (grid[j], results[j].1);
    var m := Max(cands);
    CandidatesMembers(results, target, m);
    var i :| 0 <= i < |results| && results[i] == (m, results[i].1) && results[i].1 >= target;
    assert i <= j;
  }

  lemma CoarseGridFacts()
    ensures Ascending(CoarseGrid)
    ensures forall i :: 0 <= i < |CoarseGrid| ==> 0.0 <= CoarseGrid[i] <= MaxP
  {
  }

  /** What a coarse-to-fine search reports. */
  datatype Outcome =
    | NoneMeetTarget
    | Estimate(coarseBest: real, low: real, high: real, bestP: real, bestScore: real)

  /**
   * The noise-threshold policy of the Bell experiment: coarse scan, exit if
   * nothing passes, clamp, refine starting from the coarse best.  The
   * estimate meets the target and is never below the coarse best, which is
   * the largest passing grid point; it is the coarse best or a window point
   * the refinement took, and no point the refinement took lies above it.
   */
  method ThresholdPolicy(target: real, eval: (nat, real) -> real) returns (r: Outcome)
    ensures r.NoneMeetTarget? <==> forall i :: 0 <= i < |CoarseGrid| ==> eval(i, CoarseGrid[i]) < target
    ensures r.Estimate? ==> exists j :: (0 <= j < |CoarseGrid| && eval(j, CoarseGrid[j]) >= target && r.coarseBest == CoarseGrid[j])
    ensures r.Estimate? ==> forall k :: 0 <= k < |CoarseGrid| && eval(k, CoarseGrid[k]) >= target ==> CoarseGrid[k] <= r.coarseBest
    ensures r.Estimate? ==> 0.0 <= r.low <= r.coarseBest <= r.high <= MaxP
    ensures r.Estimate? ==> r.coarseBest <= r.bestP && r.bestScore >= target
    ensures r.Estimate? ==> forall n :: 0 <= n < NumPoints(r.low, r.high) && Takes(eval, |CoarseGrid|, r.low, r.coarseBest, target, n) ==> Point(r.low, n) <= r.bestP
    ensures r.Estimate? ==> r.bestP == r.coarseBest || exists n :: 0 <= n < NumPoints(r.low, r.high) && Takes(eval, |CoarseGrid|, r.low, r.coarseBest, target, n) && r.bestP == Point(r.low, n)
  {
    var best := CoarseScan(CoarseGrid, target, eval);
    if best.None? {
      return NoneMeetTarget;
    }
    CoarseGridFacts();
    var bestP, bestScore := best.value.0, best.value.1;
    var lowHigh := Clamp(bestP);
    var low, high := lowHigh.0, lowHigh.1;
    var refinedP, refinedScore := Refine(low, high, bestP, bestScore, target, eval, |CoarseGrid|);
    r := Estimate(bestP, low, high, refinedP, refinedScore);
  }

  /**
   * The Deutsch-Jozsa threshold search: coarse scan, exit if nothing passes,
   * clamp, then refine starting from (low, 0.0) rather than from the coarse
   * best.  The estimate is the last window point whose accuracy met the
   * target, or `low` with accuracy 0.0 when no window point did.
   */
  method ThresholdSearch(target: real, eval: (nat, real) -> real) returns (r: Outcome)
    ensures r.NoneMeetTarget? <==> forall i :: 0 <= i < |CoarseGrid| ==> eval(i, CoarseGrid[i]) < target
    ensures r.Estimate? ==> exists j :: (0 <= j < |CoarseGrid| && eval(j, CoarseGrid[j]) >= target && r.coarseBest == CoarseGrid[j])
    ensures r.Estimate? ==> forall k :: 0 <= k < |CoarseGrid| && eval(k, CoarseGrid[k]) >= target ==> CoarseGrid[k] <= r.coarseBest
    ensures r.Estimate? ==> 0.0 <= r.low <= r.coarseBest <= r.high <= MaxP
    ensures r.Estimate? ==> RefineOutcome(eval, |CoarseGrid|, r.low, r.low, 0.0, target, NumPoints(r.low, r.high), r.bestP, r.bestScore)
    ensures r.Estimate? ==> r.low <= r.bestP && (r.bestScore >= target || (r.bestP == r.low && r.bestScore == 0.0))
  {
    var results := CoarseResults(CoarseGrid, eval);
    var candidates := Candidates(results, target);
    if candidates == [] {
      forall i | 0 <= i < |CoarseGrid| ensures eval(i, CoarseGrid[i]) < target {
        CandidatesMembers(results, target, CoarseGrid[i]);
        assert results[i] == (CoarseGrid[i], results[i].1);
      }
      return NoneMeetTarget;
    }
    CoarseGridFacts();
    var best := Max(candidates);
    CandidatesMembers(results, target, best);
    forall k | 0 <= k < |CoarseGrid| && eval(k, CoarseGrid[k]) >= target
      ensures CoarseGrid[k] <= best
    {
      CandidatesMembers(results, target, CoarseGrid[k]);
      assert results[k] == (CoarseGrid[k], results[k].1);
    }
    var lowHigh := Clamp(best);
    var low, high := lowHigh.0, lowHigh.1;
    var refinedP, refinedScore := Refine(low, high, low, 0.0, target, eval, |CoarseGrid|);
    r := Estimate(best, low, high, refinedP, refinedScore);
  }

  /**
   * Starting the refinement from (low, 0.0) means the estimate can fall
   * below the coarse best that passed: if every coarse evaluation scores
   * 0.96 (best 0.40, window [0.35, 0.45]) and every refinement evaluation
   * scores 0.90 < 0.95, the estimate is 0.35 with accuracy 0.0.
   */
  lemma EstimateCanFallBelowCoarseBest(bestP: real, bestScore: real)
    requires RefineOutcome((n: nat, p: real) => if n < 9 then 0.96 else 0.90, 9, 0.35, 0.35, 0.0, 0.95,
                           NumPoints(0.35, 0.45), bestP, bestScore)
    ensures Clamp(0.40) == (0.35, 0.45)
    ensures bestP == 0.35 && bestScore == 0.0 && bestP < 0.40
  {
    var eval := (n: nat, p: real) => if n < 9 then 0.96 else 0.90;
    forall j | 0 <= j < NumPoints(0.35, 0.45) ensures !Takes(eval, 9, 0.35, 0.35, 0.95, j) {
      assert RefineScore(eval, 9, 0.35, j) == 0.90;
    }
  }
}
