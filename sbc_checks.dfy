/** The checks run on the outputs of SBC (`sbi/diagnostics/sbc.py`,
    `sbc_checks`, `check_uniformity`, `check_prior_vs_dap`): a Kolmogorov-Smirnov
    test and a classifier two-sample test (c2st) of every rank column against
    `Uniform(0, num_ranks)`, a c2st of every DAP column against the prior, and
    the negative log-probability of the true parameters (NLTP).

    The tests themselves and the uniform draws are uninterpreted functions; the
    model states how they are applied, column by column, and how their results
    are combined. */
module SbcChecks {
  import opened Outcomes
  import opened Seqs
  import opened Sbc

  /** The statistics the checks call: `c2st(a, b)` between two one-dimensional
      samples, the p-value of `kstest(a, uniform(0, numRanks).cdf)`, and the
      `n` draws from `Uniform(0, numRanks)` made for column `j` in repetition
      `rep`. */
  datatype Stats = Stats(
    c2st: (seq<real>, seq<real>) -> real,
    ksPValue: (seq<real>, int) -> real,
    uniformSample: (nat, nat, nat, int) -> seq<real>)

  /** Column `j` of an `n x d` matrix: one element of `m.T`. */
  function Column(m: seq<seq<real>>, d: nat, j: nat): (r: seq<real>)
    requires IsMatrix(m, d) && j < d
    ensures |r| == |m| && forall i :: 0 <= i < |m| ==> r[i] == m[i][j]
  {
    seq(|m|, i requires 0 <= i < |m| => m[i][j])
  }

  /** `torch.mean` of a one-dimensional tensor; `None` is the NaN of an empty one. */
  function Mean(s: seq<real>): (r: Option<real>)
    ensures r.None? <==> |s| == 0
  {
    if |s| == 0 then None else Some(Sum(s) / |s| as real)
  }

  /** The mean lies between any bounds on the terms. */
  lemma MeanBounds(s: seq<real>, lo: real, hi: real)
    requires |s| > 0
    requires forall i :: 0 <= i < |s| ==> lo <= s[i] <= hi
    ensures lo <= Mean(s).value <= hi
  {
    SumBounds(s, lo, hi);
    var n := |s| as real;
    DivBounds(Sum(s), n, lo, hi);
  }

  lemma DivBounds(x: real, n: real, lo: real, hi: real)
    requires n > 0.0 && n * lo <= x <= n * hi
    ensures lo <= x / n <= hi
  {
  }

  /** The mean of terms that are all `v` is `v`. */
  lemma MeanConstant(s: seq<real>, v: real)
    requires |s| > 0
    requires forall i :: 0 <= i < |s| ==> s[i] == v
    ensures Mean(s) == Some(v)
  {
    SumConstant(s, v);
    var n := |s| as real;
    assert Sum(s) == n * v;
    MulDiv(n, v);
    assert Mean(s) == Some(Sum(s) / n);
  }

  lemma MulDiv(n: real, v: real)
    requires n > 0.0
    ensures n * v / n == v
  {
  }

  /** The unbiased sample variance, the square of `torch.std`, of at least two terms. */
  function SampleVariance(s: seq<real>): real
    requires |s| >= 2
  {
    var m := Sum(s) / |s| as real;
    Sum(seq(|s|, i requires 0 <= i < |s| => (s[i] - m) * (s[i] - m))) / (|s| - 1) as real
  }

  /** Identical terms have no spread. */
  lemma SampleVarianceConstant(s: seq<real>, v: real)
    requires |s| >= 2
    requires forall i :: 0 <= i < |s| ==> s[i] == v
    ensures SampleVariance(s) == 0.0
  {
    SumConstant(s, v);
    var m := Sum(s) / |s| as real;
    assert m == v;
    var dev := seq(|s|, i requires 0 <= i < |s| => (s[i] - m) * (s[i] - m));
    SumConstant(dev, 0.0);
  }

  // ---------------------------------------------------------------------------
  // check_uniformity

  /** `c2st_scores[rep][j]`: the c2st between rank column `j` and fresh draws
      from `Uniform(0, numRanks)`, one row per repetition. */
  function C2stScores(stats: Stats, ranks: seq<seq<real>>, d: nat, numRanks: int, reps: nat): (r: seq<seq<real>>)
    requires IsMatrix(ranks, d)
    ensures |r| == reps && forall rep :: 0 <= rep < reps ==> |r[rep]| == d
  {
    seq(reps, rep requires 0 <= rep < reps =>
      seq(d, j requires 0 <= j < d => stats.c2st(Column(ranks, d, j), stats.uniformSample(rep, j, |ranks|, numRanks))))
  }

  /** `c2st_scores.mean(0)`: the per-column mean over the repetitions; `None`
      is the NaN of zero repetitions. */
  function MeanOverReps(scores: seq<seq<real>>, d: nat): (r: Option<seq<real>>)
    requires IsMatrix(scores, d)
    ensures r.None? <==> |scores| == 0
    ensures r.Some? ==> |r.value| == d && forall j :: 0 <= j < d ==> Some(r.value[j]) == Mean(Column(scores, d, j))
  {
    if |scores| == 0 then None
    else Some(seq(d, j requires 0 <= j < d => Sum(Column(scores, d, j)) / |scores| as real))
  }

  /** `(c2st_scores.std(0) > 0.05).any()`; with fewer than two repetitions the
      standard deviation is NaN and no comparison holds. `std > 0.05` is written
      as `variance > 0.0025`, the standard deviation being non-negative. */
  predicate Variable(scores: seq<seq<real>>, d: nat)
    requires IsMatrix(scores, d)
  {
    |scores| >= 2 && exists j :: 0 <= j < d && SampleVariance(Column(scores, d, j)) > 0.0025
  }

  /** What `check_uniformity` returns, and whether it warned. */
  datatype Uniformity = Uniformity(ksPvals: seq<real>, c2stRanks: Option<seq<real>>, variable: bool)

  /** `check_uniformity(ranks, num_ranks, num_repetitions)`. */
  function CheckUniformity(stats: Stats, ranks: seq<seq<real>>, d: nat, numRanks: int, reps: nat): (r: Uniformity)
    requires IsMatrix(ranks, d)
    ensures |r.ksPvals| == d
    ensures forall j :: 0 <= j < d ==> r.ksPvals[j] == stats.ksPValue(Column(ranks, d, j), numRanks)
    ensures r.c2stRanks.None? <==> reps == 0
    ensures r.c2stRanks.Some? ==> |r.c2stRanks.value| == d
    ensures r.variable ==> reps >= 2
  {
    var scores := C2stScores(stats, ranks, d, numRanks, reps);
    Uniformity(
      seq(d, j requires 0 <= j < d => stats.ksPValue(Column(ranks, d, j), numRanks)),
      MeanOverReps(scores, d),
      Variable(scores, d))
  }

  /** Each averaged score is the mean over the repetitions of the c2st of that
      rank column against uniform draws. */
  lemma CheckUniformityC2st(stats: Stats, ranks: seq<seq<real>>, d: nat, numRanks: int, reps: nat, j: nat)
    requires IsMatrix(ranks, d) && reps > 0 && j < d
    ensures Some(CheckUniformity(stats, ranks, d, numRanks, reps).c2stRanks.value[j]) ==
      Mean(seq(reps, rep requires 0 <= rep < reps =>
        stats.c2st(Column(ranks, d, j), stats.uniformSample(rep, j, |ranks|, numRanks))))
  {
    var scores := C2stScores(stats, ranks, d, numRanks, reps);
    assert Column(scores, d, j) == seq(reps, rep requires 0 <= rep < reps =>
      stats.c2st(Column(ranks, d, j), stats.uniformSample(rep, j, |ranks|, numRanks)));
  }

  /** With one repetition, the default of `sbc_checks`, the averaged scores are
      the scores of that repetition and there is no variability warning. */
  lemma CheckUniformitySingleRep(stats: Stats, ranks: seq<seq<real>>, d: nat, numRanks: int)
    requires IsMatrix(ranks, d)
    ensures var u := CheckUniformity(stats, ranks, d, numRanks, 1);
      u.c2stRanks == Some(C2stScores(stats, ranks, d, numRanks, 1)[0]) && !u.variable
  {
    var scores := C2stScores(stats, ranks, d, numRanks, 1);
    var m := MeanOverReps(scores, d).value;
    forall j | 0 <= j < d
      ensures m[j] == scores[0][j]
    {
      MeanConstant(Column(scores, d, j), scores[0][j]);
    }
    assert m == scores[0];
  }

  /** c2st accuracies lie in `[0, 1]`, and so do their averages. */
  lemma CheckUniformityBounds(stats: Stats, ranks: seq<seq<real>>, d: nat, numRanks: int, reps: nat)
    requires IsMatrix(ranks, d) && reps > 0
    requires forall a: seq<real>, b: seq<real> :: 0.0 <= stats.c2st(a, b) <= 1.0
    ensures var m := CheckUniformity(stats, ranks, d, numRanks, reps).c2stRanks.value;
      forall j :: 0 <= j < d ==> 0.0 <= m[j] <= 1.0
  {
    var scores := C2stScores(stats, ranks, d, numRanks, reps);
    var m := MeanOverReps(scores, d).value;
    forall j | 0 <= j < d
      ensures 0.0 <= m[j] <= 1.0
    {
      var col := Column(scores, d, j);
      forall rep | 0 <= rep < reps
        ensures 0.0 <= col[rep] <= 1.0
      {
        var a, b := Column(ranks, d, j), stats.uniformSample(rep, j, |ranks|, numRanks);
        assert col[rep] == scores[rep][j] == stats.c2st(a, b);
      }
      MeanBounds(col, 0.0, 1.0);
    }
  }

  // ---------------------------------------------------------------------------
  // check_prior_vs_dap

  /** Why the checks fail: the prior and DAP samples differ in shape. */
  datatype CheckError = ShapeMismatch

  /** `check_prior_vs_dap`: the shapes `(n, d)` must agree; then one c2st per
      dimension between the prior's and the DAP's marginal samples. */
  function CheckPriorVsDap(stats: Stats, prior: seq<seq<real>>, dP: nat, dap: seq<seq<real>>, dD: nat): (r: Result<seq<real>, CheckError>)
    requires IsMatrix(prior, dP) && IsMatrix(dap, dD)
    ensures r.Ok? <==> |prior| == |dap| && dP == dD
    ensures r.Ok? ==> (|r.value| == dP &&
      forall j :: 0 <= j < dP ==> r.value[j] == stats.c2st(Column(prior, dP, j), Column(dap, dD, j)))
  {
    if |prior| != |dap| || dP != dD then Err(ShapeMismatch)
    else Ok(seq(dP, j requires 0 <= j < dP => stats.c2st(Column(prior, dP, j), Column(dap, dD, j))))
  }

  /** Each score compares one dimension only: changing another column of the
      DAP samples leaves it as it is. */
  lemma CheckPriorVsDapPerDimension(stats: Stats, prior: seq<seq<real>>, dap1: seq<seq<real>>, dap2: seq<seq<real>>, d: nat, j: nat)
    requires IsMatrix(prior, d) && IsMatrix(dap1, d) && IsMatrix(dap2, d) && j < d
    requires |prior| == |dap1| == |dap2|
    requires forall i :: 0 <= i < |dap1| ==> dap1[i][j] == dap2[i][j]
    ensures CheckPriorVsDap(stats, prior, d, dap1, d).value[j] == CheckPriorVsDap(stats, prior, d, dap2, d).value[j]
  {
    assert Column(dap1, d, j) == Column(dap2, d, j);
  }

  // ---------------------------------------------------------------------------
  // NLTP and sbc_checks

  /** `torch.mean(-log_probs)`: `None` is the NaN of an empty tensor. */
  function Nltp(logProbs: seq<real>): (r: Option<real>)
    ensures r.None? <==> |logProbs| == 0
  {
    Mean(seq(|logProbs|, i requires 0 <= i < |logProbs| => -logProbs[i]))
  }

  /** The NLTP is the negated mean log-probability of the true parameters. */
  lemma NltpIsNegatedMean(logProbs: seq<real>)
    requires |logProbs| > 0
    ensures Nltp(logProbs) == Some(-Mean(logProbs).value)
  {
    SumNegate(logProbs);
    NegDiv(Sum(logProbs), |logProbs| as real);
  }

  lemma NegDiv(x: real, n: real)
    requires n > 0.0
    ensures -x / n == -(x / n)
  {
  }

  /** The warnings the checks raise. */
  datatype CheckWarning = FewCheckSamples | C2stVariability

  /** The dictionary `sbc_checks` returns. */
  datatype Checks = Checks(ksPvals: seq<real>, c2stRanks: Option<seq<real>>, c2stDap: seq<real>, nltp: Option<real>)

  /** `sbc_checks(ranks, log_probs, prior_samples, dap_samples, num_ranks)`:
      a warning for fewer than 100 rows, the uniformity checks with one
      repetition, the prior-vs-DAP check (which fails on a shape mismatch, after
      the warnings have been raised) and the NLTP. */
  function SbcChecks(stats: Stats, ranks: seq<seq<real>>, d: nat, logProbs: seq<real>,
                     prior: seq<seq<real>>, dP: nat, dap: seq<seq<real>>, dD: nat, numRanks: int)
    : (r: (Result<Checks, CheckError>, seq<CheckWarning>))
    requires IsMatrix(ranks, d) && IsMatrix(prior, dP) && IsMatrix(dap, dD)
    ensures FewCheckSamples in r.1 <==> |ranks| < 100
    ensures C2stVariability !in r.1
    ensures r.0.Ok? <==> |prior| == |dap| && dP == dD
    ensures r.0.Ok? ==> r.0.value.c2stRanks.Some? && |r.0.value.c2stRanks.value| == d && |r.0.value.ksPvals| == d
    ensures r.0.Ok? ==> r.0.value.c2stDap == CheckPriorVsDap(stats, prior, dP, dap, dD).value
    ensures r.0.Ok? ==> (r.0.value.nltp.None? <==> |logProbs| == 0)
    ensures r.0.Ok? ==> r.0.value.ksPvals == CheckUniformity(stats, ranks, d, numRanks, 1).ksPvals
    ensures r.0.Ok? ==> r.0.value.c2stRanks == Some(C2stScores(stats, ranks, d, numRanks, 1)[0])
    ensures r.0.Ok? ==> r.0.value.nltp == Nltp(logProbs)
  {
    var few := if |ranks| < 100 then [FewCheckSamples] else [];
    var u := CheckUniformity(stats, ranks, d, numRanks, 1);
    CheckUniformitySingleRep(stats, ranks, d, numRanks);
    var warnings := few + (if u.variable then [C2stVariability] else []);
    match CheckPriorVsDap(stats, prior, dP, dap, dD)
    case Err(e) => (Err(e), warnings)
    case Ok(c2stDap) => (Ok(Checks(u.ksPvals, u.c2stRanks, c2stDap, Nltp(logProbs))), warnings)
  }
}
