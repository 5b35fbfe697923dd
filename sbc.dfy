/** Simulation-based calibration (`sbi/diagnostics/sbc.py`): for every pair
    `(theta_o, x_o)` drawn from the prior and the simulator, `L` posterior draws
    are taken given `x_o`; the true parameter is ranked against them dimension by
    dimension, the first draw is kept as a sample of the data-averaged posterior
    (DAP), and the posterior log-probability of the true parameter is recorded.

    The posterior and the ranking density are uninterpreted functions over reals;
    the posterior is a deterministic oracle, so that the batched and the unbatched
    runs can be compared. */
module Sbc {
  import opened Outcomes
  import opened Seqs

  // ---------------------------------------------------------------------------
  // Collaborators

  /** A posterior `p(theta | x)`: `logProb(theta, x)` and `sample(n, x)`, the
      draws of `posterior.sample((n,), x=x)` as `n` rows. */
  datatype Posterior = Posterior(
    logProb: (seq<real>, seq<real>) -> real,
    sample: (nat, seq<real>) -> seq<seq<real>>)

  /** `posterior.sample((n,), x=x)` returns `n` draws of a `d`-dimensional parameter. */
  ghost predicate PosteriorShapes(post: Posterior, d: nat)
  {
    forall n: nat, x: seq<real> ::
      |post.sample(n, x)| == n &&
      forall j :: 0 <= j < n ==> |post.sample(n, x)[j]| == d
  }

  /** A batch of parameters or data: rows of one width `d` (a 2-D tensor). */
  predicate IsMatrix(m: seq<seq<real>>, d: nat)
  {
    forall i :: 0 <= i < |m| ==> |m[i]| == d
  }

  /** The `ranking_rv` argument: a name, a distribution given by its log-density,
      or `None`. */
  datatype RankingRv = Named(name: string) | Distribution(logProb: real -> real) | NoRv

  /** `log(10) + log(sqrt(2 * pi))`, the log-normaliser of `Normal(0, 10)` to six
      places. Ranks do not depend on it (`RankOrderInvariant`). */
  const GaussianLogNormalizer: real := 3.221524

  /** The log-density of `Normal(loc=0, scale=10)`, the default ranking variable. */
  function GaussianLogProb(v: real): real
  {
    -(v * v) / 200.0 - GaussianLogNormalizer
  }

  /** `"gaussian"` becomes `Normal(0, 10)`; anything else must already be a
      distribution, or the type assertion fails. */
  function ResolveRankingRv(rv: RankingRv): (r: Option<real -> real>)
    ensures r.Some? <==> rv.Distribution? || (rv.Named? && rv.name == "gaussian")
    ensures rv.Distribution? ==> r == Some(rv.logProb)
    ensures rv.Named? && rv.name == "gaussian" ==> r == Some(GaussianLogProb)
  {
    match rv
    case Named(name) => if name == "gaussian" then Some(GaussianLogProb) else None
    case Distribution(f) => Some(f)
    case NoRv => None
  }

  // ---------------------------------------------------------------------------
  // Ranking

  /** How many scores lie strictly below `target`: the `.sum()` of the boolean
      mask `scores < target`. */
  function CountBelow(scores: seq<real>, target: real): (r: nat)
    ensures r <= |scores|
  {
    if |scores| == 0 then 0
    else CountBelow(scores[..|scores| - 1], target) + (if scores[|scores| - 1] < target then 1 else 0)
  }

  /** The indices of the scores strictly below `target`. */
  ghost function BelowSet(scores: seq<real>, target: real): set<nat>
  {
    set k: nat | k < |scores| && scores[k] < target
  }

  /** The count is the number of indices whose score is strictly below the target. */
  lemma {:induction false} CountBelowIsCardinality(scores: seq<real>, target: real)
    ensures CountBelow(scores, target) == |BelowSet(scores, target)|
  {
    if |scores| > 0 {
      var n := |scores| - 1;
      var front := scores[..n];
      CountBelowIsCardinality(front, target);
      var a, b := BelowSet(front, target), BelowSet(scores, target);
      if scores[n] < target {
        assert b == a + {n};
        assert n !in a;
      } else {
        assert b == a;
      }
    }
  }

  /** No score is counted exactly when none is strictly below the target; in
      particular a target tied with every score has count 0. */
  lemma {:induction false} CountBelowZero(scores: seq<real>, target: real)
    ensures CountBelow(scores, target) == 0 <==> forall k :: 0 <= k < |scores| ==> scores[k] >= target
  {
    if |scores| > 0 {
      var n := |scores| - 1;
      CountBelowZero(scores[..n], target);
      assert forall k :: 0 <= k < n ==> scores[..n][k] == scores[k];
    }
  }

  /** Every score is counted exactly when all are strictly below the target. */
  lemma {:induction false} CountBelowAll(scores: seq<real>, target: real)
    ensures CountBelow(scores, target) == |scores| <==> forall k :: 0 <= k < |scores| ==> scores[k] < target
  {
    if |scores| > 0 {
      var n := |scores| - 1;
      CountBelowAll(scores[..n], target);
      assert forall k :: 0 <= k < n ==> scores[..n][k] == scores[k];
    }
  }

  /** Two score lists that compare with their targets index by index the same way
      have the same count. */
  lemma {:induction false} CountBelowPattern(s1: seq<real>, t1: real, s2: seq<real>, t2: real)
    requires |s1| == |s2|
    requires forall k :: 0 <= k < |s1| ==> (s1[k] < t1 <==> s2[k] < t2)
    ensures CountBelow(s1, t1) == CountBelow(s2, t2)
  {
    if |s1| > 0 {
      var n := |s1| - 1;
      CountBelowPattern(s1[..n], t1, s2[..n], t2);
    }
  }

  /** `ranking_rv.log_prob(ths[:, dim])`: the score of every draw in one dimension. */
  function DrawScores(ths: seq<seq<real>>, dim: nat, score: real -> real): (r: seq<real>)
    requires forall k :: 0 <= k < |ths| ==> dim < |ths[k]|
    ensures |r| == |ths| && forall k :: 0 <= k < |ths| ==> r[k] == score(ths[k][dim])
  {
    seq(|ths|, k requires 0 <= k < |ths| => score(ths[k][dim]))
  }

  /** The rank of `trueValue` in dimension `dim` among the draws `ths`. */
  function Rank(ths: seq<seq<real>>, dim: nat, trueValue: real, score: real -> real): (r: nat)
    requires forall k :: 0 <= k < |ths| ==> dim < |ths[k]|
    ensures r <= |ths|
  {
    CountBelow(DrawScores(ths, dim, score), score(trueValue))
  }

  /** The rank counts the draws whose score is strictly below the true value's. */
  lemma RankIsCount(ths: seq<seq<real>>, dim: nat, trueValue: real, score: real -> real)
    requires forall k :: 0 <= k < |ths| ==> dim < |ths[k]|
    ensures Rank(ths, dim, trueValue, score) ==
      |set k: nat | k < |ths| && score(ths[k][dim]) < score(trueValue)|
  {
    var s := DrawScores(ths, dim, score);
    CountBelowIsCardinality(s, score(trueValue));
    assert BelowSet(s, score(trueValue)) ==
      set k: nat | k < |ths| && score(ths[k][dim]) < score(trueValue);
  }

  /** Strict comparison: when every draw ties with the true value the rank is 0,
      and the rank is 0 exactly when no draw scores strictly lower. */
  lemma RankZero(ths: seq<seq<real>>, dim: nat, trueValue: real, score: real -> real)
    requires forall k :: 0 <= k < |ths| ==> dim < |ths[k]|
    ensures Rank(ths, dim, trueValue, score) == 0 <==>
      forall k :: 0 <= k < |ths| ==> score(ths[k][dim]) >= score(trueValue)
    ensures (forall k :: 0 <= k < |ths| ==> ths[k][dim] == trueValue) ==> Rank(ths, dim, trueValue, score) == 0
  {
    CountBelowZero(DrawScores(ths, dim, score), score(trueValue));
  }

  /** The rank is `L` exactly when every draw scores strictly lower. */
  lemma RankFull(ths: seq<seq<real>>, dim: nat, trueValue: real, score: real -> real)
    requires forall k :: 0 <= k < |ths| ==> dim < |ths[k]|
    ensures Rank(ths, dim, trueValue, score) == |ths| <==>
      forall k :: 0 <= k < |ths| ==> score(ths[k][dim]) < score(trueValue)
  {
    CountBelowAll(DrawScores(ths, dim, score), score(trueValue));
  }

  /** Ranks depend only on the order the ranking density induces: two densities
      that order every pair of values alike give the same ranks. */
  lemma RankOrderInvariant(ths: seq<seq<real>>, dim: nat, trueValue: real, f: real -> real, g: real -> real)
    requires forall k :: 0 <= k < |ths| ==> dim < |ths[k]|
    requires forall a: real, b: real :: f(a) < f(b) <==> g(a) < g(b)
    ensures Rank(ths, dim, trueValue, f) == Rank(ths, dim, trueValue, g)
  {
    var s1, s2 := DrawScores(ths, dim, f), DrawScores(ths, dim, g);
    forall k | 0 <= k < |ths|
      ensures s1[k] < f(trueValue) <==> s2[k] < g(trueValue)
    {
      SameOrderAt(f, g, ths[k][dim], trueValue);
    }
    CountBelowPattern(s1, f(trueValue), s2, g(trueValue));
  }

  lemma SameOrderAt(f: real -> real, g: real -> real, x: real, y: real)
    requires forall a: real, b: real :: f(a) < f(b) <==> g(a) < g(b)
    ensures f(x) < f(y) <==> g(x) < g(y)
  {
  }

  /** Under the default `Normal(0, 10)` the rank counts the draws strictly farther
      from 0 than the true value. */
  lemma GaussianRankByMagnitude(ths: seq<seq<real>>, dim: nat, trueValue: real)
    requires forall k :: 0 <= k < |ths| ==> dim < |ths[k]|
    ensures Rank(ths, dim, trueValue, GaussianLogProb) ==
      |set k: nat | k < |ths| && trueValue * trueValue < ths[k][dim] * ths[k][dim]|
  {
    var f: real -> real := GaussianLogProb;
    RankIsCount(ths, dim, trueValue, f);
    forall k: nat | k < |ths|
      ensures f(ths[k][dim]) < f(trueValue) <==> trueValue * trueValue < ths[k][dim] * ths[k][dim]
    {
      var a, b := ths[k][dim] * ths[k][dim], trueValue * trueValue;
      assert f(ths[k][dim]) == -a / 200.0 - GaussianLogNormalizer;
      assert f(trueValue) == -b / 200.0 - GaussianLogNormalizer;
    }
    assert (set k: nat | k < |ths| && f(ths[k][dim]) < f(trueValue)) ==
      (set k: nat | k < |ths| && trueValue * trueValue < ths[k][dim] * ths[k][dim]);
  }

  // ---------------------------------------------------------------------------
  // One trial and one batch (sbc_on_batch)

  /** What one trial writes: row `idx` of `log_prob_thos`, `dap_samples` and `ranks`. */
  datatype TrialResult = TrialResult(logProb: real, dap: seq<real>, ranks: seq<nat>)

  /** The three outputs of `sbc_on_batch` (and of `sbc_in_batches`), row by row. */
  datatype SbcOutput = SbcOutput(ranks: seq<seq<nat>>, logProbs: seq<real>, daps: seq<seq<real>>)

  /** `n` rows of width `d` in all three outputs, ranks at most `L`. */
  predicate WellShaped(o: SbcOutput, n: nat, d: nat, L: nat)
  {
    |o.ranks| == n && |o.logProbs| == n && |o.daps| == n &&
    (forall i :: 0 <= i < n ==> |o.daps[i]| == d) &&
    (forall i :: 0 <= i < n ==> |o.ranks[i]| == d && forall dim :: 0 <= dim < d ==> o.ranks[i][dim] <= L)
  }

  function Zeros(d: nat): (r: seq<real>)
    ensures |r| == d && forall j :: 0 <= j < d ==> r[j] == 0.0
  {
    seq(d, _ => 0.0)
  }

  function ZeroRanks(d: nat): (r: seq<nat>)
    ensures |r| == d && forall j :: 0 <= j < d ==> r[j] == 0
  {
    seq(d, _ => 0)
  }

  /** A row that no trial writes keeps the zeros it was allocated with. */
  function ZeroRow(d: nat): TrialResult
  {
    TrialResult(0.0, Zeros(d), ZeroRanks(d))
  }

  /** The ranks of one trial, one per dimension of `theta_o`. */
  function TrialRanks(ths: seq<seq<real>>, thetaO: seq<real>, score: real -> real): (r: seq<nat>)
    requires forall k :: 0 <= k < |ths| ==> |ths[k]| == |thetaO|
    ensures |r| == |thetaO|
    ensures forall dim :: 0 <= dim < |thetaO| ==> r[dim] == Rank(ths, dim, thetaO[dim], score) && r[dim] <= |ths|
  {
    seq(|thetaO|, dim requires 0 <= dim < |thetaO| => Rank(ths, dim, thetaO[dim], score))
  }

  /** One iteration of the trial loop; `None` is the `IndexError` of `ths[0]`
      when no draw was requested. */
  function Trial(post: Posterior, thetaO: seq<real>, xO: seq<real>, L: nat, score: real -> real): (r: Option<TrialResult>)
    requires PosteriorShapes(post, |thetaO|)
    ensures r.None? <==> L == 0
    ensures r.Some? ==> (|r.value.dap| == |thetaO| && |r.value.ranks| == |thetaO| &&
      forall dim :: 0 <= dim < |thetaO| ==> r.value.ranks[dim] <= L)
  {
    var ths := post.sample(L, xO);
    if |ths| == 0 then None
    else Some(TrialResult(post.logProb(thetaO, xO), ths[0], TrialRanks(ths, thetaO, score)))
  }

  /** `zip(thos, xos)` stops at the shorter of the two. */
  function Paired(thos: seq<seq<real>>, xos: seq<seq<real>>): (r: nat)
    ensures r <= |thos| && r <= |xos| && (r == |thos| || r == |xos|)
  {
    if |thos| <= |xos| then |thos| else |xos|
  }

  /** Row `i` of the outputs of `sbc_on_batch`. */
  function BatchRow(post: Posterior, thos: seq<seq<real>>, xos: seq<seq<real>>, L: nat, score: real -> real, d: nat, i: nat): TrialResult
    requires IsMatrix(thos, d) && PosteriorShapes(post, d) && i < |thos|
    requires L > 0 || Paired(thos, xos) == 0
  {
    if i < Paired(thos, xos) then Trial(post, thos[i], xos[i], L, score).value else ZeroRow(d)
  }

  function Rows(post: Posterior, thos: seq<seq<real>>, xos: seq<seq<real>>, L: nat, score: real -> real, d: nat): (r: seq<TrialResult>)
    requires IsMatrix(thos, d) && PosteriorShapes(post, d)
    requires L > 0 || Paired(thos, xos) == 0
    ensures |r| == |thos| && forall i :: 0 <= i < |thos| ==> r[i] == BatchRow(post, thos, xos, L, score, d, i)
  {
    seq(|thos|, i requires 0 <= i < |thos| => BatchRow(post, thos, xos, L, score, d, i))
  }

  /** Rows split into the three output tensors. */
  function Unzip(rows: seq<TrialResult>): (r: SbcOutput)
    ensures |r.ranks| == |rows| && |r.logProbs| == |rows| && |r.daps| == |rows|
    ensures forall i :: 0 <= i < |rows| ==>
      r.ranks[i] == rows[i].ranks && r.logProbs[i] == rows[i].logProb && r.daps[i] == rows[i].dap
  {
    SbcOutput(
      seq(|rows|, i requires 0 <= i < |rows| => rows[i].ranks),
      seq(|rows|, i requires 0 <= i < |rows| => rows[i].logProb),
      seq(|rows|, i requires 0 <= i < |rows| => rows[i].dap))
  }

  /** `sbc_on_batch(thos, xos, posterior, L, ranking_rv)`: `None` when a trial
      runs with `L == 0`. */
  function OnBatch(post: Posterior, thos: seq<seq<real>>, xos: seq<seq<real>>, L: nat, score: real -> real, d: nat): (r: Option<SbcOutput>)
    requires IsMatrix(thos, d) && PosteriorShapes(post, d)
    ensures r.None? <==> L == 0 && Paired(thos, xos) > 0
    ensures r.Some? ==> WellShaped(r.value, |thos|, d, L)
  {
    if L == 0 && Paired(thos, xos) > 0 then None
    else
      var rows := Rows(post, thos, xos, L, score, d);
      Some(Unzip(rows))
  }

  /** Trial `i` writes row `i` and nothing else: its log-prob is the posterior's
      log-prob of `(theta_o, x_o)`, its DAP sample is its first draw, and its
      ranks are those of `theta_o` among its draws. */
  lemma OnBatchTrialRow(post: Posterior, thos: seq<seq<real>>, xos: seq<seq<real>>, L: nat, score: real -> real, d: nat, i: nat)
    requires IsMatrix(thos, d) && PosteriorShapes(post, d)
    requires L > 0 && i < Paired(thos, xos)
    ensures OnBatch(post, thos, xos, L, score, d).Some?
    ensures var o := OnBatch(post, thos, xos, L, score, d).value;
      var ths := post.sample(L, xos[i]);
      |ths| == L && (forall k :: 0 <= k < L ==> |ths[k]| == d) &&
      o.logProbs[i] == post.logProb(thos[i], xos[i]) &&
      o.daps[i] == ths[0] &&
      o.ranks[i] == TrialRanks(ths, thos[i], score)
  {
  }

  /** Rows past the shorter of `thos` and `xos` are never visited and stay zero. */
  lemma OnBatchUnpairedRow(post: Posterior, thos: seq<seq<real>>, xos: seq<seq<real>>, L: nat, score: real -> real, d: nat, i: nat)
    requires IsMatrix(thos, d) && PosteriorShapes(post, d)
    requires L > 0 || Paired(thos, xos) == 0
    requires Paired(thos, xos) <= i < |thos|
    ensures OnBatch(post, thos, xos, L, score, d).Some?
    ensures var o := OnBatch(post, thos, xos, L, score, d).value;
      o.logProbs[i] == 0.0 && o.daps[i] == Zeros(d) && o.ranks[i] == ZeroRanks(d)
  {
  }

  /** Row `i` of the 2-D `ranks` array. */
  function RankRow(a: array2<nat>, i: nat): (r: seq<nat>)
    requires i < a.Length0
    reads a
    ensures |r| == a.Length1 && forall j :: 0 <= j < a.Length1 ==> r[j] == a[i, j]
  {
    seq(a.Length1, j requires 0 <= j < a.Length1 reads a => a[i, j])
  }

  /** The `ranks` array read back as rows. */
  function RanksTable(a: array2<nat>): (r: seq<seq<nat>>)
    reads a
    ensures |r| == a.Length0 && forall i :: 0 <= i < a.Length0 ==> r[i] == RankRow(a, i)
  {
    seq(a.Length0, i requires 0 <= i < a.Length0 reads a => RankRow(a, i))
  }

  /** After `idx` iterations of the trial loop: rows below `idx` hold their
      trials, the others still hold zeros. */
  ghost predicate Filled(post: Posterior, thos: seq<seq<real>>, xos: seq<seq<real>>, L: nat, score: real -> real, d: nat,
                         lps: seq<real>, daps: seq<seq<real>>, rks: seq<seq<nat>>, idx: nat)
    requires IsMatrix(thos, d) && PosteriorShapes(post, d)
  {
    |lps| == |thos| && |daps| == |thos| && |rks| == |thos| && idx <= Paired(thos, xos) &&
    (forall i :: 0 <= i < idx ==> Trial(post, thos[i], xos[i], L, score) == Some(TrialResult(lps[i], daps[i], rks[i]))) &&
    (forall i :: idx <= i < |thos| ==> lps[i] == 0.0 && daps[i] == Zeros(d) && rks[i] == ZeroRanks(d))
  }

  lemma FilledStep(post: Posterior, thos: seq<seq<real>>, xos: seq<seq<real>>, L: nat, score: real -> real, d: nat,
                   lps: seq<real>, daps: seq<seq<real>>, rks: seq<seq<nat>>, idx: nat, t: TrialResult)
    requires IsMatrix(thos, d) && PosteriorShapes(post, d)
    requires Filled(post, thos, xos, L, score, d, lps, daps, rks, idx) && idx < Paired(thos, xos)
    requires Trial(post, thos[idx], xos[idx], L, score) == Some(t)
    ensures Filled(post, thos, xos, L, score, d, lps[idx := t.logProb], daps[idx := t.dap], rks[idx := t.ranks], idx + 1)
  {
  }

  lemma FilledComplete(post: Posterior, thos: seq<seq<real>>, xos: seq<seq<real>>, L: nat, score: real -> real, d: nat,
                       lps: seq<real>, daps: seq<seq<real>>, rks: seq<seq<nat>>)
    requires IsMatrix(thos, d) && PosteriorShapes(post, d)
    requires Filled(post, thos, xos, L, score, d, lps, daps, rks, Paired(thos, xos))
    requires L > 0 || Paired(thos, xos) == 0
    ensures OnBatch(post, thos, xos, L, score, d) == Some(SbcOutput(rks, lps, daps))
  {
    var o := Unzip(Rows(post, thos, xos, L, score, d));
    assert o.ranks == rks;
    assert o.logProbs == lps;
    assert o.daps == daps;
  }

  /** The inner loop of a trial: `ranks[idx, dim]` for every dimension, the
      other rows untouched. */
  method FillRanks(ranks: array2<nat>, idx: nat, ths: seq<seq<real>>, thetaO: seq<real>, score: real -> real)
    requires idx < ranks.Length0 && ranks.Length1 == |thetaO|
    requires forall k :: 0 <= k < |ths| ==> |ths[k]| == |thetaO|
    modifies ranks
    ensures RanksTable(ranks) == old(RanksTable(ranks))[idx := TrialRanks(ths, thetaO, score)]
  {
    ghost var rk0 := RanksTable(ranks);
    for dim := 0 to |thetaO|
      invariant forall j :: 0 <= j < dim ==> ranks[idx, j] == Rank(ths, j, thetaO[j], score)
      invariant forall i, j :: 0 <= i < ranks.Length0 && 0 <= j < ranks.Length1 && (i != idx || dim <= j) ==> ranks[i, j] == rk0[i][j]
    {
      ranks[idx, dim] := Rank(ths, dim, thetaO[dim], score);
    }
    assert RankRow(ranks, idx) == TrialRanks(ths, thetaO, score);
    forall i | 0 <= i < ranks.Length0 && i != idx
      ensures RankRow(ranks, i) == rk0[i]
    {
    }
  }

  /** `sbc_on_batch`: the three outputs are allocated as zeros and filled row by
      row, one trial per pair of `zip(thos, xos)`, the ranks one dimension at a
      time; `None` is the `IndexError` of the first trial when `L == 0`. */
  method SbcOnBatch(post: Posterior, thos: seq<seq<real>>, xos: seq<seq<real>>, L: nat, score: real -> real, d: nat)
    returns (out: Option<SbcOutput>)
    requires IsMatrix(thos, d) && PosteriorShapes(post, d)
    ensures out == OnBatch(post, thos, xos, L, score, d)
  {
    var n, m := |thos|, Paired(thos, xos);
    var logProbThos := new real[n](_ => 0.0);
    var dapSamples := new seq<real>[n](_ => Zeros(d));
    var ranks := new nat[n, d]((_, _) => 0);
    forall i | 0 <= i < n
      ensures RankRow(ranks, i) == ZeroRanks(d)
    {
    }
    var idx := 0;
    while idx < m
      invariant idx > 0 ==> L > 0
      invariant Filled(post, thos, xos, L, score, d, logProbThos[..], dapSamples[..], RanksTable(ranks), idx)
    {
      ghost var lp0, dap0, rk0 := logProbThos[..], dapSamples[..], RanksTable(ranks);
      var lp := post.logProb(thos[idx], xos[idx]);
      logProbThos[idx] := lp;
      var ths := post.sample(L, xos[idx]);
      assert |ths| == L && forall k :: 0 <= k < L ==> |ths[k]| == d;
      if |ths| == 0 {
        return None;
      }
      dapSamples[idx] := ths[0];
      FillRanks(ranks, idx, ths, thos[idx], score);
      var t := TrialResult(lp, ths[0], TrialRanks(ths, thos[idx], score));
      FilledStep(post, thos, xos, L, score, d, lp0, dap0, rk0, idx, t);
      idx := idx + 1;
    }
    FilledComplete(post, thos, xos, L, score, d, logProbThos[..], dapSamples[..], RanksTable(ranks));
    out := Some(SbcOutput(RanksTable(ranks), logProbThos[..], dapSamples[..]));
  }

  // ---------------------------------------------------------------------------
  // Batching (sbc_in_batches)

  /** `torch.split(t, k, dim=0)` of a non-empty leading axis with `k > 0`:
      consecutive chunks of `k` rows, the last one holding what is left. */
  function Chunks<T>(s: seq<T>, k: nat): (r: seq<seq<T>>)
    requires k > 0
    ensures Concat(r) == s
    ensures forall j :: 0 <= j < |r| ==> 0 < |r[j]| <= k
    ensures forall j :: 0 <= j < |r| - 1 ==> |r[j]| == k
    decreases |s|
  {
    if |s| == 0 then []
    else if |s| <= k then [s]
    else [s[..k]] + Chunks(s[k..], k)
  }

  /** The number of chunks is `ceil(n / k)`. */
  lemma {:induction false} ChunksCount<T>(s: seq<T>, k: nat)
    requires k > 0
    ensures |Chunks(s, k)| * k - k < |s| <= |Chunks(s, k)| * k
    decreases |s|
  {
    if |s| > k {
      ChunksCount(s[k..], k);
      var c := |Chunks(s[k..], k)|;
      assert |Chunks(s, k)| == c + 1;
      MulSucc(c, k);
    }
  }

  lemma MulSucc(c: nat, k: nat)
    ensures (c + 1) * k == c * k + k
  {
  }

  /** `torch.split` along the leading axis: an empty axis gives one empty chunk
      (whatever the size), a size of 0 on a non-empty axis is an error. */
  function Split<T>(s: seq<T>, k: nat): (r: Option<seq<seq<T>>>)
    ensures r.None? <==> |s| > 0 && k == 0
    ensures r.Some? ==> |r.value| > 0 && Concat(r.value) == s
    ensures |s| == 0 ==> r == Some([s])
    ensures |s| > 0 && k > 0 ==> r == Some(Chunks(s, k))
    ensures r.Some? ==> forall j :: 0 <= j < |r.value| ==> |r.value[j]| <= k || |s| == 0
  {
    if |s| == 0 then Some([s])
    else if k == 0 then None
    else Some(Chunks(s, k))
  }

  /** Sequences of one length are split into chunks of the same lengths. */
  lemma {:induction false} ChunksAligned<T, U>(a: seq<T>, b: seq<U>, k: nat)
    requires k > 0 && |a| == |b|
    ensures |Chunks(a, k)| == |Chunks(b, k)|
    ensures forall j :: 0 <= j < |Chunks(a, k)| ==> |Chunks(a, k)[j]| == |Chunks(b, k)[j]|
    decreases |a|
  {
    if |a| > k {
      ChunksAligned(a[k..], b[k..], k);
    }
  }

  /** A sequence is a matrix exactly when all the pieces it is made of are. */
  lemma {:induction false} ConcatMatrix(ms: seq<seq<seq<real>>>, d: nat)
    ensures IsMatrix(Concat(ms), d) <==> forall j :: 0 <= j < |ms| ==> IsMatrix(ms[j], d)
  {
    if |ms| > 0 {
      ConcatMatrix(ms[1..], d);
      var rest := Concat(ms[1..]);
      assert Concat(ms) == ms[0] + rest;
      assert IsMatrix(ms[0] + rest, d) <==> IsMatrix(ms[0], d) && IsMatrix(rest, d) by {
        assert forall i :: 0 <= i < |ms[0]| ==> (ms[0] + rest)[i] == ms[0][i];
        assert forall i :: 0 <= i < |rest| ==> (ms[0] + rest)[|ms[0]| + i] == rest[i];
      }
      assert forall j :: 1 <= j < |ms| ==> ms[j] == ms[1..][j - 1];
    }
  }

  /** The three outputs of two runs laid one after the other (`torch.cat`). */
  function Join(o1: SbcOutput, o2: SbcOutput): SbcOutput
  {
    SbcOutput(o1.ranks + o2.ranks, o1.logProbs + o2.logProbs, o1.daps + o2.daps)
  }

  /** Rows split into outputs commute with concatenation. */
  lemma UnzipAppend(r1: seq<TrialResult>, r2: seq<TrialResult>)
    ensures Unzip(r1 + r2) == Join(Unzip(r1), Unzip(r2))
  {
    var o, o1, o2 := Unzip(r1 + r2), Unzip(r1), Unzip(r2);
    assert o.ranks == o1.ranks + o2.ranks;
    assert o.logProbs == o1.logProbs + o2.logProbs;
    assert o.daps == o1.daps + o2.daps;
  }

  /** The rows of two batches laid one after the other. */
  lemma RowsAppend(post: Posterior, a1: seq<seq<real>>, b1: seq<seq<real>>, a2: seq<seq<real>>, b2: seq<seq<real>>,
                   L: nat, score: real -> real, d: nat)
    requires IsMatrix(a1, d) && IsMatrix(a2, d) && IsMatrix(a1 + a2, d) && PosteriorShapes(post, d)
    requires |a1| == |b1| && |a2| == |b2|
    requires L > 0 || |a1| + |a2| == 0
    ensures Rows(post, a1 + a2, b1 + b2, L, score, d) == Rows(post, a1, b1, L, score, d) + Rows(post, a2, b2, L, score, d)
  {
    var a, b := a1 + a2, b1 + b2;
    var r1, r2 := Rows(post, a1, b1, L, score, d), Rows(post, a2, b2, L, score, d);
    var r := Rows(post, a, b, L, score, d);
    forall i | 0 <= i < |r|
      ensures r[i] == (r1 + r2)[i]
    {
      if i < |a1| {
        assert a[i] == a1[i] && b[i] == b1[i];
      } else {
        assert a[i] == a2[i - |a1|] && b[i] == b2[i - |a1|];
      }
    }
  }

  /** A batch followed by another gives the outputs of the two batches joined:
      every trial depends only on its own pair. */
  lemma OnBatchAppend(post: Posterior, a1: seq<seq<real>>, b1: seq<seq<real>>, a2: seq<seq<real>>, b2: seq<seq<real>>,
                      L: nat, score: real -> real, d: nat)
    requires IsMatrix(a1, d) && IsMatrix(a2, d) && PosteriorShapes(post, d)
    requires |a1| == |b1| && |a2| == |b2|
    requires OnBatch(post, a1, b1, L, score, d).Some? && OnBatch(post, a2, b2, L, score, d).Some?
    ensures IsMatrix(a1 + a2, d)
    ensures OnBatch(post, a1 + a2, b1 + b2, L, score, d) ==
      Some(Join(OnBatch(post, a1, b1, L, score, d).value, OnBatch(post, a2, b2, L, score, d).value))
  {
    ConcatMatrix([a1, a2], d);
    assert Concat([a1, a2]) == a1 + a2 by {
      assert [a1, a2][1..] == [a2];
      ConcatSingle(a2);
    }
    RowsAppend(post, a1, b1, a2, b2, L, score, d);
    UnzipAppend(Rows(post, a1, b1, L, score, d), Rows(post, a2, b2, L, score, d));
  }

  function RanksOf(outs: seq<SbcOutput>): (r: seq<seq<seq<nat>>>)
    ensures |r| == |outs| && forall j :: 0 <= j < |outs| ==> r[j] == outs[j].ranks
  {
    seq(|outs|, j requires 0 <= j < |outs| => outs[j].ranks)
  }

  function LogProbsOf(outs: seq<SbcOutput>): (r: seq<seq<real>>)
    ensures |r| == |outs| && forall j :: 0 <= j < |outs| ==> r[j] == outs[j].logProbs
  {
    seq(|outs|, j requires 0 <= j < |outs| => outs[j].logProbs)
  }

  function DapsOf(outs: seq<SbcOutput>): (r: seq<seq<seq<real>>>)
    ensures |r| == |outs| && forall j :: 0 <= j < |outs| ==> r[j] == outs[j].daps
  {
    seq(|outs|, j requires 0 <= j < |outs| => outs[j].daps)
  }

  lemma OutputsOfSnoc(outs: seq<SbcOutput>, j: nat)
    requires j < |outs|
    ensures RanksOf(outs[..j + 1]) == RanksOf(outs[..j]) + [outs[j].ranks]
    ensures LogProbsOf(outs[..j + 1]) == LogProbsOf(outs[..j]) + [outs[j].logProbs]
    ensures DapsOf(outs[..j + 1]) == DapsOf(outs[..j]) + [outs[j].daps]
  {
  }

  lemma OutputsOfWhole(outs: seq<SbcOutput>)
    ensures RanksOf(outs[..|outs|]) == RanksOf(outs)
    ensures LogProbsOf(outs[..|outs|]) == LogProbsOf(outs)
    ensures DapsOf(outs[..|outs|]) == DapsOf(outs)
  {
    assert outs[..|outs|] == outs;
  }

  /** The aggregation after the batch loop: each output list concatenated. */
  function ConcatOutputs(outs: seq<SbcOutput>): SbcOutput
  {
    SbcOutput(Concat(RanksOf(outs)), Concat(LogProbsOf(outs)), Concat(DapsOf(outs)))
  }

  lemma ConcatOutputsCons(outs: seq<SbcOutput>)
    requires |outs| > 0
    ensures ConcatOutputs(outs) == Join(outs[0], ConcatOutputs(outs[1..]))
  {
    var rs, ls, ds := RanksOf(outs), LogProbsOf(outs), DapsOf(outs);
    assert rs[1..] == RanksOf(outs[1..]);
    assert ls[1..] == LogProbsOf(outs[1..]);
    assert ds[1..] == DapsOf(outs[1..]);
    assert Concat(rs) == outs[0].ranks + Concat(rs[1..]);
    assert Concat(ls) == outs[0].logProbs + Concat(ls[1..]);
    assert Concat(ds) == outs[0].daps + Concat(ds[1..]);
  }

  /** Running the batches one after the other and concatenating their outputs
      gives the outputs of one run over all the pairs: the batch size does not
      change the result. */
  lemma {:induction false} BatchedEqualsUnbatched(post: Posterior, tbs: seq<seq<seq<real>>>, xbs: seq<seq<seq<real>>>,
                                                  L: nat, score: real -> real, d: nat, outs: seq<SbcOutput>)
    requires PosteriorShapes(post, d)
    requires |tbs| == |xbs| == |outs|
    requires forall j :: 0 <= j < |tbs| ==> IsMatrix(tbs[j], d) && |tbs[j]| == |xbs[j]|
    requires forall j :: 0 <= j < |tbs| ==> OnBatch(post, tbs[j], xbs[j], L, score, d) == Some(outs[j])
    ensures IsMatrix(Concat(tbs), d)
    ensures OnBatch(post, Concat(tbs), Concat(xbs), L, score, d) == Some(ConcatOutputs(outs))
  {
    ConcatMatrix(tbs, d);
    if |tbs| == 0 {
      assert OnBatch(post, [], [], L, score, d).value.ranks == [];
      assert ConcatOutputs(outs) == SbcOutput([], [], []);
    } else {
      BatchedEqualsUnbatched(post, tbs[1..], xbs[1..], L, score, d, outs[1..]);
      var ta, xa := Concat(tbs[1..]), Concat(xbs[1..]);
      ConcatUniformPairs(tbs, xbs);
      OnBatchAppend(post, tbs[0], xbs[0], ta, xa, L, score, d);
      ConcatOutputsCons(outs);
    }
  }

  /** Piecewise equal lengths give equal total lengths. */
  lemma {:induction false} ConcatUniformPairs<T, U>(ts: seq<seq<T>>, us: seq<seq<U>>)
    requires |ts| == |us| && forall j :: 0 <= j < |ts| ==> |ts[j]| == |us[j]|
    ensures |Concat(ts)| == |Concat(us)|
  {
    if |ts| > 0 {
      ConcatUniformPairs(ts[1..], us[1..]);
    }
  }

  /** The warnings `sbc_in_batches` raises about too few samples. */
  datatype Warning = FewSbcSamples | FewPosteriorSamples

  /** Why `sbc_in_batches` fails: the ranking variable is not a distribution,
      `torch.split` rejects a batch size of 0, or a trial indexes an empty draw. */
  datatype SbcError = InvalidRankingRv | SplitError | IndexError

  /** Fewer than 1000 SBC samples and fewer than 100 posterior draws are each
      warned about, in that order. */
  function RunWarnings(numSbcSamples: nat, L: nat): (r: seq<Warning>)
    ensures FewSbcSamples in r <==> numSbcSamples < 1000
    ensures FewPosteriorSamples in r <==> L < 100
    ensures |r| == 2 ==> r == [FewSbcSamples, FewPosteriorSamples]
    ensures |r| <= 2
  {
    (if numSbcSamples < 1000 then [FewSbcSamples] else []) + (if L < 100 then [FewPosteriorSamples] else [])
  }

  /** The reference for `sbc_in_batches`: one run of the trial loop over all
      pairs, with the batch size used only by the check `torch.split` makes. */
  function SbcRun(post: Posterior, thos: seq<seq<real>>, xos: seq<seq<real>>, L: nat, batchSize: nat,
                  rv: RankingRv, d: nat): (r: Result<SbcOutput, SbcError>)
    requires IsMatrix(thos, d) && PosteriorShapes(post, d) && |thos| == |xos|
    ensures r == Err(InvalidRankingRv) <==> ResolveRankingRv(rv).None?
    ensures r == Err(SplitError) <==> ResolveRankingRv(rv).Some? && |thos| > 0 && batchSize == 0
    ensures r == Err(IndexError) <==> ResolveRankingRv(rv).Some? && |thos| > 0 && batchSize > 0 && L == 0
    ensures r.Ok? ==> WellShaped(r.value, |thos|, d, L)
  {
    match ResolveRankingRv(rv)
    case None => Err(InvalidRankingRv)
    case Some(score) =>
      if |thos| > 0 && batchSize == 0 then Err(SplitError)
      else
        match OnBatch(post, thos, xos, L, score, d)
        case None => Err(IndexError)
        case Some(o) => Ok(o)
  }

  /** Whatever the batch size, row `i` of a successful run holds trial `i`: the
      log-prob of `(thos[i], xos[i])`, the first of its draws and its ranks. */
  lemma SbcRunRow(post: Posterior, thos: seq<seq<real>>, xos: seq<seq<real>>, L: nat, batchSize: nat,
                  rv: RankingRv, d: nat, i: nat)
    requires IsMatrix(thos, d) && PosteriorShapes(post, d) && |thos| == |xos|
    requires SbcRun(post, thos, xos, L, batchSize, rv, d).Ok? && i < |thos|
    ensures var o := SbcRun(post, thos, xos, L, batchSize, rv, d).value;
      var ths := post.sample(L, xos[i]);
      |ths| == L > 0 &&
      o.logProbs[i] == post.logProb(thos[i], xos[i]) &&
      o.daps[i] == ths[0] &&
      o.ranks[i] == TrialRanks(ths, thos[i], ResolveRankingRv(rv).value)
  {
    OnBatchTrialRow(post, thos, xos, L, ResolveRankingRv(rv).value, d, i);
  }

  /** The batch loop of `sbc_in_batches`: `sbc_on_batch` on each pair of
      `zip(thos_batches, xos_batches)` in turn, the outputs appended in order. */
  method RunBatches(post: Posterior, tbs: seq<seq<seq<real>>>, xbs: seq<seq<seq<real>>>, L: nat, score: real -> real, d: nat)
    returns (outs: Option<seq<SbcOutput>>)
    requires PosteriorShapes(post, d)
    requires forall j :: 0 <= j < |tbs| ==> IsMatrix(tbs[j], d)
    ensures outs.Some? ==> |outs.value| == |tbs| || |outs.value| == |xbs|
    ensures outs.Some? ==> |outs.value| <= |tbs| && |outs.value| <= |xbs|
    ensures outs.Some? ==> forall j :: 0 <= j < |outs.value| ==> OnBatch(post, tbs[j], xbs[j], L, score, d) == Some(outs.value[j])
    ensures outs.None? ==> L == 0 && exists j :: 0 <= j < |tbs| && j < |xbs| && Paired(tbs[j], xbs[j]) > 0
  {
    var sbcOutputs: seq<SbcOutput> := [];
    var i := 0;
    while i < |tbs| && i < |xbs|
      invariant i <= |tbs| && i <= |xbs| && |sbcOutputs| == i
      invariant forall j :: 0 <= j < i ==> OnBatch(post, tbs[j], xbs[j], L, score, d) == Some(sbcOutputs[j])
    {
      var out := SbcOnBatch(post, tbs[i], xbs[i], L, score, d);
      if out.None? {
        return None;
      }
      sbcOutputs := sbcOutputs + [out.value];
      i := i + 1;
    }
    return Some(sbcOutputs);
  }

  /** The aggregation loop of `sbc_in_batches`: one list per output, each
      batch's tensor appended in order. */
  method Aggregate(sbcOutputs: seq<SbcOutput>)
    returns (ranks: seq<seq<seq<nat>>>, logProbs: seq<seq<real>>, dapSamples: seq<seq<seq<real>>>)
    ensures ranks == RanksOf(sbcOutputs) && logProbs == LogProbsOf(sbcOutputs) && dapSamples == DapsOf(sbcOutputs)
  {
    ranks, logProbs, dapSamples := [], [], [];
    for j := 0 to |sbcOutputs|
      invariant ranks == RanksOf(sbcOutputs[..j])
      invariant logProbs == LogProbsOf(sbcOutputs[..j])
      invariant dapSamples == DapsOf(sbcOutputs[..j])
    {
      var out := sbcOutputs[j];
      OutputsOfSnoc(sbcOutputs, j);
      ranks := ranks + [out.ranks];
      logProbs := logProbs + [out.logProbs];
      dapSamples := dapSamples + [out.daps];
    }
    OutputsOfWhole(sbcOutputs);
  }

  /** `sbc_in_batches` on the simulated pairs `thos`, `xos`: resolve the ranking
      variable, warn, split both into batches, run the batches in sequence,
      collect the three outputs of each batch and concatenate them. */
  method SbcInBatches(post: Posterior, thos: seq<seq<real>>, xos: seq<seq<real>>, numSbcSamples: nat, L: nat,
                      sbcBatchSize: nat, rankingRv: RankingRv, d: nat)
    returns (result: Result<SbcOutput, SbcError>, warnings: seq<Warning>)
    requires IsMatrix(thos, d) && PosteriorShapes(post, d)
    requires |thos| == numSbcSamples && |xos| == numSbcSamples
    ensures result == SbcRun(post, thos, xos, L, sbcBatchSize, rankingRv, d)
    ensures warnings == if ResolveRankingRv(rankingRv).None? then [] else RunWarnings(numSbcSamples, L)
  {
    var rv := ResolveRankingRv(rankingRv);
    if rv.None? {
      return Err(InvalidRankingRv), [];
    }
    var score := rv.value;
    warnings := RunWarnings(numSbcSamples, L);

    var thosBatches := Split(thos, sbcBatchSize);
    var xosBatches := Split(xos, sbcBatchSize);
    if thosBatches.None? || xosBatches.None? {
      return Err(SplitError), warnings;
    }
    var tbs, xbs := thosBatches.value, xosBatches.value;
    if |thos| > 0 {
      ChunksAligned(thos, xos, sbcBatchSize);
    } else {
      assert tbs == [[]] && xbs == [[]];
    }
    ConcatMatrix(tbs, d);

    var sbcOutputs := RunBatches(post, tbs, xbs, L, score, d);
    if sbcOutputs.None? {
      return Err(IndexError), warnings;
    }
    var ranks, logProbs, dapSamples := Aggregate(sbcOutputs.value);
    BatchedEqualsUnbatched(post, tbs, xbs, L, score, d, sbcOutputs.value);
    result := Ok(SbcOutput(Concat(ranks), Concat(logProbs), Concat(dapSamples)));
  }
}
