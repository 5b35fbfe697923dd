# SBC runner and nflows density estimator of sbi, in Dafny

This project models two parts of `sbi`, the simulation-based inference toolkit.

- **Simulation-based calibration** (`sbi/diagnostics/sbc.py`). Each trial takes a pair `(theta_o, x_o)` and `L` posterior draws given `x_o`. The trial ranks `theta_o` against the draws, dimension by dimension, under a ranking density. It keeps the first draw as a sample of the data-averaged posterior (DAP). It records the posterior log-probability of `theta_o`. `sbc_on_batch` runs the trials of one batch into pre-allocated zero tensors. `sbc_in_batches` splits the pairs into batches with `torch.split`, runs them in sequence and concatenates the outputs. `sbc_checks` applies a KS test and classifier two-sample tests (c2st) to the ranks and to the DAP samples, and computes the NLTP.
- **The `nflows` density estimator** (`sbi/neural_nets/density_estimators/nflows_flow.py`). The project models how `log_prob`, `loss`, `sample`, `sample_and_log_prob` and `inverse_transform` reshape, tile, broadcast and expand tensors around one call into the wrapped flow.

Tensors are a shape (`seq<nat>`) and a flat row-major buffer (`Tensors`). `reshape` reinterprets the buffer, `repeat` along the leading axis tiles it, and `expand` repeats blocks along size-1 axes. `torch.broadcast_shapes` follows PyTorch (`Broadcast`), and a reference definition by right alignment is proved equivalent to it.

The flow network, the posterior, the ranking density, c2st, kstest and the uniform draws of `check_uniformity` are uninterpreted. They are function-valued fields of datatypes (`Flow`, `Posterior`, `RankingRv`, `Stats`). The posterior is a deterministic oracle, a function of its arguments, so that a batched run and an unbatched run see the same draws.

Modules:
- `Outcomes` and `Seqs`: Option and Result, concatenation and sums of sequences.
- `Tensors`: the tensor model.
- `Broadcast`: broadcasting and expanding.
- `NFlowsFlow`: the estimator.
- `Sbc`: ranking, trials, `sbc_on_batch` and `sbc_in_batches`.
- `SbcChecks`: `sbc_checks`, `check_uniformity` and `check_prior_vs_dap`.

`sbc_on_batch` and `sbc_in_batches` are imperative in the source, so they are `method`s with loops:
- `SbcOnBatch` fills three arrays: `array<real>`, `array<seq<real>>` and `array2<nat>`.
- It is proved equal to the function `OnBatch`.
- `SbcInBatches` appends to lists in its batch loop and aggregation loop, and is proved equal to the unbatched reference `SbcRun`.

The estimator and the checks are pure and are functions.

## Model

| member | source | states |
|---|---|---|
| Sbc.ResolveRankingRv | sbi/diagnostics/sbc.py:29-33 | The ranking variable resolves exactly when it is `"gaussian"` or a distribution. `"gaussian"` gives the `Normal(0, 10)` log-density and a distribution gives itself; anything else is the type-assertion failure. |
| Sbc.RankIsCount | sbi/diagnostics/sbc.py:144-149 | The rank of dimension `dim` is the number of draws whose ranking score is strictly below the score of the true value. |
| Sbc.Rank | sbi/diagnostics/sbc.py:145-149 | A rank lies in `[0, L]`, where `L` is the number of draws. |
| Sbc.RankZero | sbi/diagnostics/sbc.py:146 | The comparison is strict: the rank is 0 exactly when no draw scores strictly lower. When every draw ties with the true value the rank is 0. |
| Sbc.RankFull | sbi/diagnostics/sbc.py:146 | The rank is `L` exactly when every draw scores strictly lower. |
| Sbc.RankOrderInvariant | sbi/diagnostics/sbc.py:146 | Two ranking densities that order every pair of values alike give the same ranks. |
| Sbc.GaussianRankByMagnitude | sbi/diagnostics/sbc.py:29-30 | Under the default `Normal(0, 10)`, the rank counts the draws strictly farther from 0 than the true value. |
| Sbc.CountBelow | sbi/diagnostics/sbc.py:146-148 | The `.sum()` of the mask `scores < target` is at most the number of scores. `CountBelowIsCardinality` states which scores it counts. |
| Sbc.CountBelowIsCardinality | sbi/diagnostics/sbc.py:146-148 | The `.sum()` of the mask `scores < target` is the size of the set of indices whose score is below the target. |
| Sbc.Trial | sbi/diagnostics/sbc.py:136-149 | One trial fails (`IndexError` on `ths[0]`) exactly when `L == 0`. Otherwise its DAP row and its rank row have the width of `theta_o`, and every rank is at most `L`. |
| Sbc.Paired | sbi/diagnostics/sbc.py:134 | `zip(thos, xos)` visits as many pairs as the shorter of the two has rows. |
| Sbc.OnBatch | sbi/diagnostics/sbc.py:130-151 | One batch fails exactly when `L == 0` and some pair is visited. Otherwise `ranks` and the DAP samples are `N x d`, the log-probs have length `N`, and every rank is at most `L`. |
| Sbc.OnBatchTrialRow | sbi/diagnostics/sbc.py:134-149 | For trial `i`: the log-prob row is the posterior log-prob of `(theta_o, x_o)`, the DAP row is the first of the `L` draws, and the rank row holds the ranks of `theta_o` among those draws. |
| Sbc.OnBatchUnpairedRow | sbi/diagnostics/sbc.py:130-134 | Rows past the shorter of `thos` and `xos` (where `zip` stops) keep their zeros. |
| Sbc.FillRanks | sbi/diagnostics/sbc.py:144-149 | The inner loop writes the ranks of trial `idx`, one dimension at a time, into row `idx` of the ranks array and leaves every other row as it was. |
| Sbc.SbcOnBatch | sbi/diagnostics/sbc.py:130-151 | The imperative fill loop over the three zero-initialised arrays computes exactly `OnBatch`, including its `IndexError`. |
| Sbc.Chunks | sbi/diagnostics/sbc.py:53-54 | `torch.split` yields non-empty chunks of at most `k` rows, all but the last of exactly `k`. Concatenated, they give back the sequence. |
| Sbc.ChunksCount | sbi/diagnostics/sbc.py:53-54 | The number of chunks is `ceil(n / k)`. |
| Sbc.Split | sbi/diagnostics/sbc.py:53-54 | A split size of 0 on a non-empty axis is an error. An empty axis gives exactly one chunk, itself empty, whatever the size. A non-empty axis with a positive size gives exactly `Chunks`: non-empty chunks, all but the last of exactly `k` rows. Chunks concatenate back to the input. |
| Sbc.ChunksAligned | sbi/diagnostics/sbc.py:53-54 | `thos` and `xos` of one length split into the same number of chunks, of pairwise equal lengths. |
| Sbc.ConcatMatrix | sbi/diagnostics/sbc.py:53-54 | A sequence of rows has width `d` exactly when every chunk it is made of does. |
| Seqs.Concat | sbi/diagnostics/sbc.py:105-107 | `torch.cat` of no tensors is empty. `Seqs.ConcatAppend` and `Seqs.ConcatSingle` state how it joins a list of pieces. |
| Seqs.ConcatAppend | sbi/diagnostics/sbc.py:105-107 | Concatenating two lists of pieces one after the other is concatenating each and joining the results. |
| Sbc.UnzipAppend | sbi/diagnostics/sbc.py:105-107 | Splitting rows into the three outputs commutes with concatenation. |
| Sbc.RowsAppend | sbi/diagnostics/sbc.py:134-149 | The trials of two batches laid one after the other are the trials of the joined batch. |
| Sbc.OnBatchAppend | sbi/diagnostics/sbc.py:84-107 | Running two batches and joining their outputs gives the outputs of one batch holding both: every trial depends only on its own pair. |
| Sbc.ConcatOutputsCons | sbi/diagnostics/sbc.py:100-107 | The concatenated outputs of a list of batches are the first batch's outputs followed by those of the rest. |
| Sbc.BatchedEqualsUnbatched | sbi/diagnostics/sbc.py:84-107 | Running the chunks in order and concatenating their outputs gives the outputs of one unbatched run over all pairs. |
| Sbc.RunWarnings | sbi/diagnostics/sbc.py:35-44 | There is a warning for fewer than 1000 SBC samples exactly when `num_sbc_samples < 1000`, and separately one for too few draws exactly when `num_posterior_samples < 100`, in that order. |
| Sbc.SbcRun | sbi/diagnostics/sbc.py:29-109 | The reference result. It fails on an invalid ranking variable exactly then, and on the split exactly when the batch size is 0 with pairs present. It fails on indexing exactly when `L == 0` with pairs present. Otherwise the outputs are `N x d`, `N` and `N x d`, with ranks in `[0, L]`. |
| Sbc.SbcRunRow | sbi/diagnostics/sbc.py:84-109 | Whatever the batch size, row `i` of a successful run holds trial `i`: its log-prob, the first of its draws and its ranks. |
| Sbc.RunBatches | sbi/diagnostics/sbc.py:83-94 | The batch loop pairs the chunks as `zip` does and appends, in order, the `sbc_on_batch` output of each chunk. It fails only when `L == 0` and some chunk holds a pair. |
| Sbc.Aggregate | sbi/diagnostics/sbc.py:97-103 | The aggregation loop builds the list of the ranks, of the log-probs and of the DAP samples of every batch, in order. |
| Sbc.SbcInBatches | sbi/diagnostics/sbc.py:29-109 | The imperative run (resolve, warn, split, batch loop, aggregation, `torch.cat`) returns exactly the unbatched reference `SbcRun`, whatever `sbc_batch_size` is. Its warnings are those of `RunWarnings`, or none when the ranking variable is invalid. |
| SbcChecks.Mean | sbi/diagnostics/sbc.py:171 | `torch.mean` is NaN (`None`) exactly for an empty sequence; `MeanBounds` and `MeanConstant` state what it computes. |
| SbcChecks.MeanBounds | sbi/diagnostics/sbc.py:228 | A mean lies between any bounds on its terms. |
| SbcChecks.MeanConstant | sbi/diagnostics/sbc.py:228 | The mean of equal terms is that term. |
| SbcChecks.SampleVarianceConstant | sbi/diagnostics/sbc.py:223 | Equal terms have zero sample variance. |
| SbcChecks.C2stScores | sbi/diagnostics/sbc.py:210-221 | The score table has one row per repetition and one column per rank dimension. |
| SbcChecks.MeanOverReps | sbi/diagnostics/sbc.py:228 | `c2st_scores.mean(0)` has one entry per column, each the mean of that column over the repetitions. Zero repetitions give NaN (`None`). |
| SbcChecks.CheckUniformity | sbi/diagnostics/sbc.py:197-228 | There is one KS p-value per rank column, from that column against `Uniform(0, num_ranks)`. Averaged c2st scores are present exactly when there is at least one repetition, one per column. The variability warning needs two repetitions or more. |
| SbcChecks.CheckUniformityC2st | sbi/diagnostics/sbc.py:210-228 | The averaged score of column `j` is the mean, over the repetitions, of the c2st of rank column `j` against that repetition's uniform draws. |
| SbcChecks.CheckUniformitySingleRep | sbi/diagnostics/sbc.py:169 | With one repetition, the default used by `sbc_checks`, the averages are that repetition's scores and there is no variability warning. |
| SbcChecks.CheckUniformityBounds | sbi/diagnostics/sbc.py:210-228 | c2st accuracies in `[0, 1]` give averaged scores in `[0, 1]`. |
| SbcChecks.CheckPriorVsDap | sbi/diagnostics/sbc.py:181-194 | The check succeeds exactly when the prior and the DAP samples have equal shapes. It then returns one c2st per column, between the two marginal samples of that column. |
| SbcChecks.CheckPriorVsDapPerDimension | sbi/diagnostics/sbc.py:189-194 | The score of column `j` depends only on column `j` of the DAP samples. |
| SbcChecks.Nltp | sbi/diagnostics/sbc.py:171 | The NLTP is NaN (`None`) exactly when there are no log-probs. |
| SbcChecks.NltpIsNegatedMean | sbi/diagnostics/sbc.py:171 | The NLTP is the negated mean log-probability of the true parameters. |
| SbcChecks.SbcChecks | sbi/diagnostics/sbc.py:154-178 | The checks warn exactly when there are fewer than 100 rank rows, and never about variability. They fail exactly on the shape mismatch of `check_prior_vs_dap`, after warning. On success `ks_pvals` are the KS p-values of `check_uniformity`, `c2st_ranks` is its one repetition's row of c2st scores, `c2st_dap` is the result of `check_prior_vs_dap`, and `nltp` is the NLTP, `mean(-log_probs)`, present exactly when there are log-probs. |
| Broadcast.BroadcastShapes | sbi/neural_nets/density_estimators/nflows_flow.py:65 | `torch.broadcast_shapes` of two shapes, on success, has as many axes as the longer of the two. `BroadcastShapesCorrect` gives its result. |
| Broadcast.BroadcastShapesCorrect | sbi/neural_nets/density_estimators/nflows_flow.py:65 | `torch.broadcast_shapes` succeeds exactly when the shapes, aligned from the right with missing sizes taken as 1, pair equal sizes or a 1 at every position. It then returns the size that is not 1 at each position. |
| Broadcast.BroadcastShapesCommutes | sbi/neural_nets/density_estimators/nflows_flow.py:65 | Broadcasting does not depend on the order of the two shapes. |
| Broadcast.BroadcastExpandable | sbi/neural_nets/density_estimators/nflows_flow.py:65-68 | Both batch shapes can be expanded to their broadcast shape. |
| Broadcast.ExpandableAppend | sbi/neural_nets/density_estimators/nflows_flow.py:67-68 | Appending the same event shape to both sides keeps a shape expandable. |
| Broadcast.Expand | sbi/neural_nets/density_estimators/nflows_flow.py:67-68 | `expand` succeeds exactly when the target is expandable, and the result has the target shape. |
| Broadcast.ExpandData | sbi/neural_nets/density_estimators/nflows_flow.py:67-68 | The buffer of an expanded tensor has as many entries as the target shape has elements. |
| Broadcast.ExpandSub | sbi/neural_nets/density_estimators/nflows_flow.py:67-68 | Row `j` of an expanded tensor is the expansion of row `j` of the source, or of row 0 when the leading axis is of size 1. |
| Broadcast.ExpandSame | sbi/neural_nets/density_estimators/nflows_flow.py:67-68 | Expanding a tensor to its own shape leaves it as it is. |
| Broadcast.ExpandLeadingIsTile | sbi/neural_nets/density_estimators/nflows_flow.py:67-68 | Expanding to a new leading axis of `n` copies repeats the buffer `n` times. |
| Tensors.Reshape | sbi/neural_nets/density_estimators/nflows_flow.py:110 | `reshape` to a fixed shape succeeds exactly when the element counts agree, and keeps the buffer. |
| Tensors.ReshapeInfer | sbi/neural_nets/density_estimators/nflows_flow.py:103 | `reshape` with one `-1` succeeds exactly when the known sizes have a non-zero product that divides the element count. It then infers the quotient and keeps the buffer. |
| Tensors.RepeatLeading | sbi/neural_nets/density_estimators/nflows_flow.py:106-107 | `condition.repeat(S, 1, ...)` has a leading axis `S` times as long, the same trailing axes, and `S` times as many entries. |
| Tensors.RepeatLeadingSub | sbi/neural_nets/density_estimators/nflows_flow.py:106-107 | Row `k` of a condition repeated `S` times along its leading axis is row `k mod B` of the condition. |
| Tensors.SubSub | sbi/neural_nets/density_estimators/nflows_flow.py:103 | `input[s][b]` is the block of the row-major buffer at row `s * B + b`. |
| Tensors.TileBlock | sbi/neural_nets/density_estimators/nflows_flow.py:107 | Each block of a tiled buffer is the original buffer. |
| NFlowsFlow.LogProb | sbi/neural_nets/density_estimators/nflows_flow.py:92-110 | `log_prob` succeeds exactly when the input has two leading axes, the condition's batch size equals the input's second axis and `S * B > 0`; its result has shape `(S, B)`. A batch mismatch is the assertion error. |
| NFlowsFlow.FlattenSampleBatch | sbi/neural_nets/density_estimators/nflows_flow.py:103 | `reshape((B * S, -1))` succeeds exactly when `B * S > 0`. It gives `(B * S, numel(event))` over the same buffer. |
| NFlowsFlow.FlatRow | sbi/neural_nets/density_estimators/nflows_flow.py:103 | Flattened row `s * B + b` is `input[s][b]`. |
| NFlowsFlow.TiledRow | sbi/neural_nets/density_estimators/nflows_flow.py:106-107 | Repeated condition row `s * B + b` is `condition[b]`. |
| NFlowsFlow.RowScores | sbi/neural_nets/density_estimators/nflows_flow.py:109 | `net.log_prob(input, context=condition)` gives one score per row, and score `k` is the network's log-prob of input row `k` given condition row `k`. |
| NFlowsFlow.LogProbScores | sbi/neural_nets/density_estimators/nflows_flow.py:103-110 | The buffer of `log_prob` is the row-by-row score of the flattened input against the repeated condition. |
| NFlowsFlow.LogProbPairing | sbi/neural_nets/density_estimators/nflows_flow.py:103-110 | `log_prob(input, cond)[s][b]` is the network's log-prob of `input[s][b]` given `cond[b]`. |
| NFlowsFlow.LogProbEqualSlices | tests/density_estimator_test.py:274-283 | Equal input slices `input[s1] == input[s2]` give equal rows of `log_prob`. |
| NFlowsFlow.Loss | sbi/neural_nets/density_estimators/nflows_flow.py:112-123 | `loss` succeeds exactly when `log_prob` does, with shape `(S, B)`. |
| NFlowsFlow.LossPairing | sbi/neural_nets/density_estimators/nflows_flow.py:123 | `loss[s][b]` is the negated network log-prob of `input[s][b]` given `cond[b]`. |
| NFlowsFlow.LossEqualSlices | tests/density_estimator_test.py:274-283 | Equal input slices give equal rows of `loss`. |
| Tensors.Negate | sbi/neural_nets/density_estimators/nflows_flow.py:123 | Negation keeps the shape and negates every entry. |
| NFlowsFlow.Sample | sbi/neural_nets/density_estimators/nflows_flow.py:135-144 | `sample` reads `condition.shape[0]` (an `IndexError` on a scalar). It requests `numel(sample_shape)` draws and keeps the network's buffer. The shape is `sample_shape`, then the condition's batch size, then the inferred width. |
| NFlowsFlow.SampleShape | sbi/neural_nets/density_estimators/nflows_flow.py:135-144 | A network returning `numel * B * D` values gives samples of shape `(*sample_shape, B, D)`. An empty product fails in the `-1` reshape. |
| NFlowsFlow.SampleEmptyShape | sbi/neural_nets/density_estimators/nflows_flow.py:136 | The empty sample shape `()` requests one draw and gives shape `(B, D)`. |
| NFlowsFlow.SampleAndLogProb | sbi/neural_nets/density_estimators/nflows_flow.py:159-167 | Samples and log-probs come from one network call. They share the leading `sample_shape`, and the samples carry the condition's batch size after it. |
| NFlowsFlow.SampleAndLogProbShapes | sbi/neural_nets/density_estimators/nflows_flow.py:159-167 | Samples have shape `(*sample_shape, B, D)` and log-probs `(*sample_shape, B)`. |
| NFlowsFlow.ConditionBatchShape | sbi/neural_nets/density_estimators/nflows_flow.py:64 | `condition.shape[:-len(condition_shape)]` is empty for an empty condition shape, because `[:-0]` is `[:0]`. Otherwise it is the prefix that leaves the condition shape. |
| NFlowsFlow.FlattenBatch | sbi/neural_nets/density_estimators/nflows_flow.py:70-71 | `reshape(-1, *event)` of a `(*batch, *event)` tensor gives `(numel(batch), *event)` over the same buffer, and fails when the event is empty of elements. |
| NFlowsFlow.TransformRowsOf | sbi/neural_nets/density_estimators/nflows_flow.py:73 | The network transform maps row `k` of the input, given row `k` of the context, to row `k` of the noise. |
| NFlowsFlow.ExpandFlat | sbi/neural_nets/density_estimators/nflows_flow.py:67-71 | Expanding to `(*batch, *event)` and flattening gives `(numel(batch), *event)`. It succeeds whenever the tensor is expandable and the event has elements. |
| NFlowsFlow.FlowNoise | sbi/neural_nets/density_estimators/nflows_flow.py:59-73 | A scalar input is an `IndexError` and non-broadcastable batch shapes are the broadcast error. On success the batch shape is the broadcast of `input.shape[:-1]` and the condition's batch shape, and the noise is `(numel(batch), D)`. |
| NFlowsFlow.InverseTransformAsWritten | sbi/neural_nets/density_estimators/nflows_flow.py:59-75 | The code as written: on success the result has the broadcast batch shape alone. |
| NFlowsFlow.InverseTransform | sbi/neural_nets/density_estimators/nflows_flow.py:59-75 | The corrected method succeeds exactly when the steps up to the network call do. Its result has shape `(*batch, D)` and holds the network's noise. |
| NFlowsFlow.InverseTransformShape | sbi/neural_nets/density_estimators/nflows_flow.py:39-40 | With a non-empty condition shape and rows, the method fails exactly when the two batch shapes do not broadcast. Otherwise the result is `(*broadcast, D)` over `numel(broadcast)` flattened rows. |
| NFlowsFlow.FlowNoiseDefined | sbi/neural_nets/density_estimators/nflows_flow.py:65-73 | Broadcastable batch shapes make every expand and flatten step succeed. |
| NFlowsFlow.InverseTransformSameBatch | sbi/neural_nets/density_estimators/nflows_flow.py:51 | For `(B, D)` with `(B, *cond)`, the result is `(B, D)` and row `b` is the transform of `input[b]` given `condition[b]`. |
| NFlowsFlow.InverseTransformBroadcastInput | sbi/neural_nets/density_estimators/nflows_flow.py:49 | For `(D,)` with `(B, *cond)`, the result is `(B, D)` and row `b` is the transform of the input given `condition[b]`. |
| NFlowsFlow.InverseTransformBroadcastCondition | sbi/neural_nets/density_estimators/nflows_flow.py:50 | For `(B, D)` with `(*cond)`, the result is `(B, D)` and row `b` is the transform of `input[b]` given the condition. |
| NFlowsFlow.InverseTransformOuterBatch | sbi/neural_nets/density_estimators/nflows_flow.py:54-55 | `(b1, 1, D)` with `(b2, *cond)` gives batch `(b1, b2)`. |
| NFlowsFlow.InverseTransformOuterBatchSwapped | sbi/neural_nets/density_estimators/nflows_flow.py:56-57 | `(b1, D)` with `(b2, 1, *cond)` gives batch `(b2, b1)`. |
| NFlowsFlow.InverseTransformMismatch | sbi/neural_nets/density_estimators/nflows_flow.py:52-53 | `(b1, D)` with `(b2, *cond)`, where `b1 != b2` and neither is 1, is the broadcast error, as written and corrected. |
| NFlowsFlow.InverseTransformAsWrittenRejectsWideRows | sbi/neural_nets/density_estimators/nflows_flow.py:74 | As written, the final reshape fails whenever the rows are wider than 1 and the batch is not empty. With width 1 it agrees with the corrected method. |
| NFlowsFlow.InverseTransformAsWrittenCounterexample | sbi/neural_nets/density_estimators/nflows_flow.py:74 | Input `(3, 2)` with condition `(3, 1)` and condition shape `(1,)` fails as written and gives `(3, 2)` corrected. |

## Left out

- The joblib `Parallel` branch and the `tqdm` progress bars of `sbc_in_batches` are not modelled: they are concurrency and display. Only the sequential path is modelled.
- `simulate_for_sbi` is stochastic and foreign, so `(thos, xos)` are parameters of `SbcInBatches`. Its promise that both have `num_sbc_samples` rows is a precondition.
- The internals of `c2st`, scipy's `kstest` and `uniform`, and `Uniform(...).sample` are uninterpreted functions (`Stats`). The argument checks of `Uniform` and `uniform` for `num_ranks <= 0` are not modelled.
- The posterior's log-prob and draws, the ranking density and the flow network's `log_prob`, `sample`, `sample_and_log_prob` and `_transorm` are uninterpreted functions. Floating point, NaN propagation and dtypes are not modelled. Reals stand for floats.
- Sbc.SbcOnBatch: the ranks the source stores in a float tensor (`zeros_like(thos)`) are naturals here. Integer-valued floats compare and sum alike.
- Sbc.GaussianLogProb: the normaliser `log(10) + log(sqrt(2 pi))` is a six-place decimal constant. Ranks do not depend on it (`RankOrderInvariant`).
- Sbc.PosteriorShapes: draws are assumed to have the width `d` of `theta_o`. A posterior that returns other widths is excluded by precondition rather than modelled as a shape error.
- `_check_condition_shape` and the `DensityEstimator` base class are not part of this model. The check is the precondition `ConditionShapeMatches`: the condition's trailing axes equal the estimator's condition shape.
- `reshape_to_sample_batch_event`, the `embedding_net` property, `sbi/inference/posteriors/__init__.py` (re-exports only) and the NaN-simulator training test are not part of this model.
- Negative sizes (a negative `sbc_batch_size`, a `-1` inside `sample_shape`) cannot be written, because sizes are `nat`.
- NFlowsFlow.InverseTransformAsWritten: line 73 calls `self.net._transorm`. The `nflows` `Flow` class names this method `_transform`, so on such a flow line 73 raises `AttributeError` and line 74 is never reached. The model does not capture that error: it treats `_transorm` as the flow's transform, so that the reshape at line 74 can be examined. `nflows` is not part of this model.
- SbcChecks.CheckUniformity: `std(0) > 0.05` is stated as `sample variance > 0.0025`. That is the same comparison for a non-negative standard deviation, and it avoids square roots. With fewer than two repetitions torch's standard deviation is NaN, and no warning is raised.
- SbcChecks.MeanOverReps: zero repetitions give a NaN scalar in torch, not a per-column tensor; the model gives `None`.

## Findings

| source | as written | input that shows it | evidently intended | confidence | as-written member | corrected member |
|---|---|---|---|---|---|---|
| sbi/neural_nets/density_estimators/nflows_flow.py:74 | `noise.reshape(batch_shape)` reshapes the `(numel(batch), D)` noise of the flow to the batch shape alone, which has only `numel(batch)` elements | input of shape `(3, 2)`, condition of shape `(3, 1)`, condition shape `(1,)`: 6 noise values cannot take shape `(3,)` | the noise keeps its last axis: shape `(*batch_shape, D)`. The docstring lists only the batch shapes, which fits only `D == 1` | not executed; medium (the docstring's shapes agree with the code for `D == 1` only; on an `nflows` flow, the `_transorm` call at line 73 fails before line 74, see the `NFlowsFlow.InverseTransformAsWritten` line under Left out) | NFlowsFlow.InverseTransformAsWrittenCounterexample | NFlowsFlow.InverseTransform |
