/** The `nflows`-backed density estimator: how `log_prob`, `loss`, `sample`,
    `sample_and_log_prob` and `inverse_transform` reshape, tile and broadcast
    their tensors around one call into the wrapped flow network. The network is
    left uninterpreted: its outputs are function-valued fields. */
module NFlowsFlow {
  import opened Outcomes
  import opened Tensors
  import opened Broadcast
  import opened Seqs

  /** A flow's transform maps one input row to a noise row of the same width. */
  type RowTransform = f: (seq<real>, seq<real>) -> seq<real> | forall x, c :: |f(x, c)| == |x|
    witness (x: seq<real>, c: seq<real>) => x

  /** The wrapped network. `logProb` and `transform` act on one input row and the
      context row at the same position; `sample` and `sampleAndLogProb` return the
      flat buffers the network produces for a number of draws and a context. */
  datatype Flow = Flow(
    logProb: (seq<real>, seq<real>) -> real,
    transform: RowTransform,
    sample: (nat, Tensor) -> seq<real>,
    sampleAndLogProb: (nat, Tensor) -> (seq<real>, seq<real>))

  /** An estimator: a network and the fixed event shape of its conditions. */
  datatype Estimator = Estimator(net: Flow, conditionShape: seq<nat>)

  /** The exceptions PyTorch raises on the paths modelled here. */
  datatype ShapeError =
    | IndexError      // a `shape[i]` read on a tensor of too small a rank
    | BatchMismatch   // the assertion that condition and input batch sizes agree
    | ReshapeError    // a `reshape` whose sizes do not fit the element count
    | BroadcastError  // `torch.broadcast_shapes` on incompatible shapes
    | ExpandError     // `expand` to a shape the tensor cannot be expanded to

  /** A flat buffer as a one-axis tensor. */
  function Flat(buf: seq<real>): (r: Tensor)
    ensures r.shape == [|buf|] && r.data == buf
  {
    assert [|buf|][1..] == [];
    assert Numel([|buf|]) == |buf| * 1;
    TensorData([|buf|], buf)
  }

  lemma MulDiv(x: nat, m: nat)
    requires m > 0
    ensures (m * x) / m == x
  {
    UniqueMod(m * x, m, x, 0);
    assert m * x == x * m;
  }

  lemma ExactQuotient(q: nat, m: nat)
    requires m > 0
    ensures (q * m) % m == 0 && (q * m) / m == q
  {
    UniqueMod(q * m, m, q, 0);
    MulDiv(q, m);
    assert m * q == q * m;
  }

  lemma NumelSingle(D: nat)
    ensures Numel([D]) == D
  {
    assert [D][1..] == [];
    assert Numel([D]) == D * 1;
  }

  lemma NumelTriple(S: nat, B: nat, rest: seq<nat>)
    ensures Numel([S, B] + rest) == S * (B * Numel(rest))
  {
    assert ([S, B] + rest)[1..] == [B] + rest;
    assert ([B] + rest)[1..] == rest;
  }

  // ---------------------------------------------------------------------------
  // log_prob and loss

  /** `input.reshape((B * S, -1))` of an `(S, B, *event)` input succeeds exactly
      when `B * S > 0`, giving `(B * S, Numel(event))` over the same buffer. */
  lemma FlattenSampleBatch(input: Tensor)
    requires |input.shape| >= 2
    ensures var S, B := input.shape[0], input.shape[1];
      var r := ReshapeInfer(input, [B * S], []);
      (r.Some? <==> B * S > 0) &&
      (r.Some? ==> r.value.shape == [B * S, Numel(input.shape[2..])] && r.value.data == input.data)
  {
    var S, B := input.shape[0], input.shape[1];
    var D := Numel(input.shape[2..]);
    NumelTriple(S, B, input.shape[2..]);
    assert [S, B] + input.shape[2..] == input.shape;
    assert [B * S][1..] == [];
    assert Numel([B * S]) == (B * S) * 1;
    assert S * (B * D) == (B * S) * D by { MulAssoc(S, B, D); }
    if B * S > 0 {
      UniqueMod((B * S) * D, B * S, D, 0);
      MulDiv(D, B * S);
    }
  }

  /** `net.log_prob(x, context=c)` on two tensors with the same number of rows:
      row `k` of `x` is scored under row `k` of `c`. */
  function RowScores(logProb: (seq<real>, seq<real>) -> real, x: Tensor, c: Tensor): (r: seq<real>)
    requires |x.shape| > 0 && |c.shape| > 0 && x.shape[0] == c.shape[0]
    ensures |r| == x.shape[0]
    ensures forall k :: 0 <= k < x.shape[0] ==> r[k] == logProb(Sub(x, k).data, Sub(c, k).data)
  {
    seq(x.shape[0], k requires 0 <= k < x.shape[0] => logProb(Sub(x, k).data, Sub(c, k).data))
  }

  /** Whether `log_prob` gets past its shape reads, its batch assertion and the
      `reshape((B * S, -1))` of the input. */
  predicate LogProbDefined(input: Tensor, condition: Tensor)
  {
    |input.shape| >= 2 && |condition.shape| >= 1 &&
    condition.shape[0] == input.shape[1] && input.shape[0] * input.shape[1] > 0
  }

  /** `NFlowsFlow.log_prob`: flattens the `(S, B, *event)` input to `(S * B, D)`,
      repeats the `(B, *cond)` condition `S` times along its leading axis, scores
      row `k` of one against row `k` of the other, and reads the scores as `(S, B)`. */
  function LogProb(est: Estimator, input: Tensor, condition: Tensor): (r: Result<Tensor, ShapeError>)
    ensures r.Ok? <==> LogProbDefined(input, condition)
    ensures r.Ok? ==> r.value.shape == [input.shape[0], input.shape[1]]
    ensures |input.shape| >= 2 && |condition.shape| >= 1 && condition.shape[0] != input.shape[1] ==>
      r == Err(BatchMismatch)
  {
    if |input.shape| < 2 || |condition.shape| < 1 then Err(IndexError)
    else
      var S, B := input.shape[0], input.shape[1];
      if condition.shape[0] != B then Err(BatchMismatch)
      else
        FlattenSampleBatch(input);
        match ReshapeInfer(input, [B * S], [])
        case None => Err(ReshapeError)
        case Some(flat) =>
          NumelPair(S, B);
          var cond := RepeatLeading(condition, S);
          var scores := RowScores(est.net.logProb, flat, cond);
          match Reshape(Flat(scores), [S, B])
          case None => Err(ReshapeError)
          case Some(t) => Ok(t)
  }

  /** The buffer of `log_prob` is the row-by-row score of the flattened input
      against the repeated condition. */
  lemma LogProbScores(est: Estimator, input: Tensor, condition: Tensor)
    requires LogProbDefined(input, condition)
    ensures var S, B := input.shape[0], input.shape[1];
      ReshapeInfer(input, [B * S], []).Some? &&
      LogProb(est, input, condition).value.data ==
        RowScores(est.net.logProb, ReshapeInfer(input, [B * S], []).value, RepeatLeading(condition, S))
  {
    FlattenSampleBatch(input);
  }

  /** Flattened row `s * B + b` of an `(S, B, *event)` input is `input[s][b]`. */
  lemma FlatRow(input: Tensor, s: nat, b: nat)
    requires |input.shape| >= 2 && s < input.shape[0] && b < input.shape[1]
    ensures var S, B := input.shape[0], input.shape[1];
      s * B + b < B * S &&
      ReshapeInfer(input, [B * S], []).Some? &&
      Sub(ReshapeInfer(input, [B * S], []).value, s * B + b).data == Sub(Sub(input, s), b).data
  {
    var S, B := input.shape[0], input.shape[1];
    var k := s * B + b;
    assert k < B * S by { RowInBounds(s, S, B); }
    FlattenSampleBatch(input);
    RowOfFlat(ReshapeInfer(input, [B * S], []).value, input.data, Numel(input.shape[2..]), k);
    SubSub(input, s, b);
  }

  lemma RowOfFlat(flat: Tensor, data: seq<real>, D: nat, k: nat)
    requires |flat.shape| == 2 && flat.shape[1] == D && flat.data == data && k < flat.shape[0]
    ensures k * D + D <= |data| && Sub(flat, k).data == data[k * D .. k * D + D]
  {
    assert flat.shape[1..] == [D];
    NumelSingle(D);
    var row := Sub(flat, k);
  }

  /** Tiled condition row `s * B + b` is condition row `b`. */
  lemma TiledRow(condition: Tensor, S: nat, s: nat, b: nat)
    requires |condition.shape| >= 1 && s < S && b < condition.shape[0]
    ensures s * condition.shape[0] + b < S * condition.shape[0]
    ensures Sub(RepeatLeading(condition, S), s * condition.shape[0] + b) == Sub(condition, b)
  {
    var B := condition.shape[0];
    var k := s * B + b;
    RowInBounds(s, S, B);
    UniqueMod(k, B, s, b);
    RepeatLeadingSub(condition, S, k);
  }

  /** Entry `[s][b]` of an `(S, B)` tensor is buffer element `s * B + b`. */
  lemma EntryOfMatrix(r: Tensor, s: nat, b: nat)
    requires |r.shape| == 2 && s < r.shape[0] && b < r.shape[1]
    ensures s * r.shape[1] + b < |r.data|
    ensures Sub(Sub(r, s), b).data == [r.data[s * r.shape[1] + b]]
  {
    var B := r.shape[1];
    assert r.shape[1..] == [B] && r.shape[1..][1..] == [];
    NumelSingle(B);
    var row := Sub(r, s);
    var lo := s * B;
    assert row.data == r.data[lo .. lo + B];
    assert Sub(row, b).data == row.data[b .. b + 1];
    assert row.data[b .. b + 1] == [r.data[lo + b]];
  }

  /** The pairing that the tiling achieves: entry `[s][b]` of `log_prob` is the
      network's score of `input[s][b]` under `condition[b]`, because flattened row
      `s * B + b` holds `input[s][b]` and tiled condition row `s * B + b` is
      condition row `(s * B + b) mod B == b`. */
  lemma LogProbPairing(est: Estimator, input: Tensor, condition: Tensor, s: nat, b: nat)
    requires LogProbDefined(input, condition)
    requires s < input.shape[0] && b < input.shape[1]
    ensures LogProb(est, input, condition).Ok?
    ensures Sub(Sub(LogProb(est, input, condition).value, s), b).data ==
      [est.net.logProb(Sub(Sub(input, s), b).data, Sub(condition, b).data)]
  {
    var S, B := input.shape[0], input.shape[1];
    var k := s * B + b;
    assert k < B * S by { RowInBounds(s, S, B); }
    LogProbScores(est, input, condition);
    var lp := LogProb(est, input, condition).value;
    var flat := ReshapeInfer(input, [B * S], []).value;
    var cond := RepeatLeading(condition, S);
    var scores := RowScores(est.net.logProb, flat, cond);
    assert Sub(Sub(lp, s), b).data == [lp.data[k]] by { EntryOfMatrix(lp, s, b); }
    assert Sub(flat, k).data == Sub(Sub(input, s), b).data by { FlatRow(input, s, b); }
    assert Sub(cond, k) == Sub(condition, b) by { TiledRow(condition, S, s, b); }
    assert lp.data[k] == scores[k];
  }

  /** Identical sample slices of the input get identical rows of `log_prob`. */
  lemma LogProbEqualSlices(est: Estimator, input: Tensor, condition: Tensor, s1: nat, s2: nat)
    requires LogProbDefined(input, condition)
    requires s1 < input.shape[0] && s2 < input.shape[0]
    requires Sub(input, s1) == Sub(input, s2)
    ensures LogProb(est, input, condition).Ok?
    ensures Sub(LogProb(est, input, condition).value, s1) == Sub(LogProb(est, input, condition).value, s2)
  {
    var r := LogProb(est, input, condition).value;
    var B := input.shape[1];
    var row1, row2 := Sub(r, s1), Sub(r, s2);
    assert |row1.data| == B == |row2.data| by { assert r.shape[1..][1..] == []; }
    forall b | 0 <= b < B
      ensures row1.data[b] == row2.data[b]
    {
      LogProbPairing(est, input, condition, s1, b);
      LogProbPairing(est, input, condition, s2, b);
      assert row1.data[b] == Sub(row1, b).data[0];
      assert row2.data[b] == Sub(row2, b).data[0];
    }
  }

  /** `NFlowsFlow.loss`: the elementwise negation of `log_prob`. */
  function Loss(est: Estimator, input: Tensor, condition: Tensor): (r: Result<Tensor, ShapeError>)
    ensures r.Ok? <==> LogProbDefined(input, condition)
    ensures r.Ok? ==> r.value.shape == [input.shape[0], input.shape[1]]
  {
    match LogProb(est, input, condition)
    case Err(e) => Err(e)
    case Ok(lp) => Ok(Negate(lp))
  }

  /** Entry `[s][b]` of `loss` is minus the network's score of `input[s][b]` under `condition[b]`. */
  lemma LossPairing(est: Estimator, input: Tensor, condition: Tensor, s: nat, b: nat)
    requires LogProbDefined(input, condition)
    requires s < input.shape[0] && b < input.shape[1]
    ensures Loss(est, input, condition).Ok?
    ensures Sub(Sub(Loss(est, input, condition).value, s), b).data ==
      [-est.net.logProb(Sub(Sub(input, s), b).data, Sub(condition, b).data)]
  {
    var lp := LogProb(est, input, condition).value;
    assert Loss(est, input, condition).value == Negate(lp);
    NegateEntry(lp, s, b);
    LogProbPairing(est, input, condition, s, b);
  }

  /** Entry `[s][b]` of a negated `(S, B)` tensor is minus entry `[s][b]`. */
  lemma NegateEntry(t: Tensor, s: nat, b: nat)
    requires |t.shape| == 2 && s < t.shape[0] && b < t.shape[1]
    ensures |Sub(Sub(t, s), b).data| == 1
    ensures Sub(Sub(Negate(t), s), b).data == [-Sub(Sub(t, s), b).data[0]]
  {
    var k := s * t.shape[1] + b;
    EntryOfMatrix(t, s, b);
    EntryOfMatrix(Negate(t), s, b);
  }

  /** Identical sample slices of the input get identical rows of `loss`. */
  lemma LossEqualSlices(est: Estimator, input: Tensor, condition: Tensor, s1: nat, s2: nat)
    requires LogProbDefined(input, condition)
    requires s1 < input.shape[0] && s2 < input.shape[0]
    requires Sub(input, s1) == Sub(input, s2)
    ensures Loss(est, input, condition).Ok?
    ensures Sub(Loss(est, input, condition).value, s1) == Sub(Loss(est, input, condition).value, s2)
  {
    var l := Loss(est, input, condition).value;
    var B := input.shape[1];
    var row1, row2 := Sub(l, s1), Sub(l, s2);
    assert |row1.data| == B == |row2.data| by { assert l.shape[1..][1..] == []; }
    forall b | 0 <= b < B
      ensures row1.data[b] == row2.data[b]
    {
      LossPairing(est, input, condition, s1, b);
      LossPairing(est, input, condition, s2, b);
      assert row1.data[b] == Sub(row1, b).data[0];
      assert row2.data[b] == Sub(row2, b).data[0];
    }
  }

  // ---------------------------------------------------------------------------
  // sample and sample_and_log_prob

  lemma NumelSnoc(a: seq<nat>, x: nat)
    ensures Numel(a + [x]) == Numel(a) * x
  {
    NumelAppend(a, [x]);
    NumelSingle(x);
  }

  /** A buffer of `m * D` values read as `(*lead, D)` where `Numel(lead) == m > 0`. */
  lemma ReshapeLastInferred(buf: seq<real>, lead: seq<nat>, D: nat)
    requires Numel(lead) > 0 && |buf| == Numel(lead) * D
    ensures ReshapeInfer(Flat(buf), lead, []) == Some(TensorData(lead + [D], buf))
  {
    var m := Numel(lead);
    var t := Flat(buf);
    NumelSingle(|buf|);
    assert Numel(t.shape) == |buf|;
    assert Numel([]) == 1;
    assert m * Numel([]) == m;
    assert |buf| == D * m + 0;
    UniqueMod(|buf|, m, D, 0);
    MulDiv(D, m);
    assert |buf| / m == D;
    assert lead + [D] + [] == lead + [D];
  }

  /** `NFlowsFlow.sample`: asks the network for `numel(sample_shape)` draws (an
      empty sample shape asks for one) and reads the buffer it returns as
      `(*sample_shape, B, -1)`, `B` being the condition's leading size. */
  function Sample(est: Estimator, sampleShape: seq<nat>, condition: Tensor): (r: Result<Tensor, ShapeError>)
    ensures |condition.shape| == 0 ==> r == Err(IndexError)
    ensures r.Ok? ==> r.value.data == est.net.sample(Numel(sampleShape), condition)
    ensures r.Ok? ==> (|r.value.shape| == |sampleShape| + 2 &&
      r.value.shape[..|sampleShape|] == sampleShape && r.value.shape[|sampleShape|] == condition.shape[0])
  {
    if |condition.shape| == 0 then Err(IndexError)
    else
      var B := condition.shape[0];
      var buf := est.net.sample(Numel(sampleShape), condition);
      match ReshapeInfer(Flat(buf), sampleShape + [B], [])
      case None => Err(ReshapeError)
      case Some(t) =>
        assert t.shape == sampleShape + [B] + [t.shape[|sampleShape| + 1]];
        Ok(t)
  }

  /** When the network returns `numel(sample_shape) * B * D` values, `sample`
      has shape `(*sample_shape, B, D)`; when `numel(sample_shape) * B == 0` the
      inferred size is ambiguous and the reshape fails. */
  lemma SampleShape(est: Estimator, sampleShape: seq<nat>, condition: Tensor, D: nat)
    requires |condition.shape| > 0
    requires |est.net.sample(Numel(sampleShape), condition)| == Numel(sampleShape) * condition.shape[0] * D
    ensures Numel(sampleShape) * condition.shape[0] > 0 ==>
      Sample(est, sampleShape, condition) ==
        Ok(TensorData(sampleShape + [condition.shape[0], D], est.net.sample(Numel(sampleShape), condition)))
    ensures Numel(sampleShape) * condition.shape[0] == 0 ==> Sample(est, sampleShape, condition) == Err(ReshapeError)
  {
    var B := condition.shape[0];
    var buf := est.net.sample(Numel(sampleShape), condition);
    NumelSnoc(sampleShape, B);
    if Numel(sampleShape) * B > 0 {
      ReshapeLastInferred(buf, sampleShape + [B], D);
      assert sampleShape + [B] + [D] == sampleShape + [B, D];
    } else {
      assert Numel(sampleShape + [B]) * Numel([]) == 0;
    }
  }

  /** `sample(())` asks the network for exactly one draw per condition row. */
  lemma SampleEmptyShape(est: Estimator, condition: Tensor, D: nat)
    requires |condition.shape| > 0 && condition.shape[0] > 0
    requires |est.net.sample(1, condition)| == condition.shape[0] * D
    ensures Sample(est, [], condition) == Ok(TensorData([condition.shape[0], D], est.net.sample(1, condition)))
  {
    SampleShape(est, [], condition, D);
  }

  /** `NFlowsFlow.sample_and_log_prob`: one network call gives draws and their
      log-probabilities; the draws are read as `(*sample_shape, B, -1)` and the
      log-probabilities as `(*sample_shape, -1)`. */
  function SampleAndLogProb(est: Estimator, sampleShape: seq<nat>, condition: Tensor): (r: Result<(Tensor, Tensor), ShapeError>)
    ensures |condition.shape| == 0 ==> r == Err(IndexError)
    ensures r.Ok? ==> r.value.0.data == est.net.sampleAndLogProb(Numel(sampleShape), condition).0
    ensures r.Ok? ==> r.value.1.data == est.net.sampleAndLogProb(Numel(sampleShape), condition).1
    ensures r.Ok? ==> |r.value.0.shape| == |sampleShape| + 2 && |r.value.1.shape| == |sampleShape| + 1
    ensures r.Ok? ==> r.value.0.shape[..|sampleShape|] == sampleShape == r.value.1.shape[..|sampleShape|]
    ensures r.Ok? ==> r.value.0.shape[|sampleShape|] == condition.shape[0]
  {
    if |condition.shape| == 0 then Err(IndexError)
    else
      var B := condition.shape[0];
      var out := est.net.sampleAndLogProb(Numel(sampleShape), condition);
      match ReshapeInfer(Flat(out.0), sampleShape + [B], [])
      case None => Err(ReshapeError)
      case Some(samples) =>
        assert samples.shape == sampleShape + [B] + [samples.shape[|sampleShape| + 1]];
        match ReshapeInfer(Flat(out.1), sampleShape, [])
        case None => Err(ReshapeError)
        case Some(logProbs) => Ok((samples, logProbs))
  }

  /** With `numel(sample_shape) * B * D` draws and `numel(sample_shape) * B`
      log-probabilities, the draws have shape `(*sample_shape, B, D)` and the
      log-probabilities `(*sample_shape, B)`. */
  lemma SampleAndLogProbShapes(est: Estimator, sampleShape: seq<nat>, condition: Tensor, D: nat)
    requires |condition.shape| > 0 && Numel(sampleShape) * condition.shape[0] > 0
    requires var out := est.net.sampleAndLogProb(Numel(sampleShape), condition);
      |out.0| == Numel(sampleShape) * condition.shape[0] * D && |out.1| == Numel(sampleShape) * condition.shape[0]
    ensures var out := est.net.sampleAndLogProb(Numel(sampleShape), condition);
      var B := condition.shape[0];
      SampleAndLogProb(est, sampleShape, condition) ==
        Ok((TensorData(sampleShape + [B, D], out.0), TensorData(sampleShape + [B], out.1)))
  {
    var B := condition.shape[0];
    var out := est.net.sampleAndLogProb(Numel(sampleShape), condition);
    NumelSnoc(sampleShape, B);
    ReshapeLastInferred(out.0, sampleShape + [B], D);
    assert sampleShape + [B] + [D] == sampleShape + [B, D];
    assert Numel(sampleShape) > 0;
    ReshapeLastInferred(out.1, sampleShape, B);
  }

  // ---------------------------------------------------------------------------
  // inverse_transform

  /** The batch part of a condition's shape, `condition.shape[:-len(condition_shape)]`.
      Python reads `shape[:-0]` as `shape[:0]`, so an empty condition shape gives `()`. */
  function ConditionBatchShape(shape: seq<nat>, conditionShape: seq<nat>): (r: seq<nat>)
    requires |conditionShape| <= |shape|
    ensures |conditionShape| == 0 ==> r == []
    ensures |conditionShape| > 0 && shape[|shape| - |conditionShape|..] == conditionShape ==> r + conditionShape == shape
  {
    if |conditionShape| == 0 then [] else shape[..|shape| - |conditionShape|]
  }

  /** The estimator's check that a condition ends in its fixed condition shape. */
  predicate ConditionShapeMatches(est: Estimator, condition: Tensor)
  {
    |est.conditionShape| <= |condition.shape| &&
    condition.shape[|condition.shape| - |est.conditionShape|..] == est.conditionShape
  }

  /** A tensor of shape `(*batch, *event)` flattened to `(-1, *event)`. */
  lemma FlattenBatch(x: Tensor, batch: seq<nat>, event: seq<nat>)
    requires x.shape == batch + event
    ensures Numel(event) > 0 ==> ReshapeInfer(x, [], event) == Some(TensorData([Numel(batch)] + event, x.data))
    ensures Numel(event) == 0 ==> ReshapeInfer(x, [], event).None?
  {
    var nb, ne := Numel(batch), Numel(event);
    NumelAppend(batch, event);
    assert Numel(x.shape) == nb * ne;
    assert Numel([]) == 1;
    assert Numel([]) * ne == ne;
    assert [] + [nb] + event == [nb] + event;
    if ne > 0 {
      var n := Numel(x.shape);
      ExactQuotient(nb, ne);
      var r := ReshapeInfer(x, [], event);
      assert r.Some?;
      assert r.value.shape == [nb] + event;
    }
  }

  /** `net._transform(x, context=c)` on `N` rows: row `k` of `x` is mapped under
      row `k` of `c`; the rows are laid out one after the other. */
  function TransformRowsOf(f: RowTransform, x: Tensor, c: Tensor): (r: Tensor)
    requires |x.shape| == 2 && |c.shape| > 0 && x.shape[0] == c.shape[0]
    ensures r.shape == x.shape
    ensures forall k :: 0 <= k < x.shape[0] ==> Sub(r, k).data == f(Sub(x, k).data, Sub(c, k).data)
  {
    var N, D := x.shape[0], x.shape[1];
    assert x.shape[1..] == [D];
    NumelSingle(D);
    var rows := seq(N, k requires 0 <= k < N => f(Sub(x, k).data, Sub(c, k).data));
    forall k | 0 <= k < N
      ensures |rows[k]| == D
    {
      var xr, cr := Sub(x, k).data, Sub(c, k).data;
      assert |f(xr, cr)| == |xr|;
    }
    ConcatUniformLength(rows, D);
    NumelPair(N, D);
    var r := TensorData(x.shape, Concat(rows));
    assert forall k :: 0 <= k < N ==> Sub(r, k).data == rows[k] by {
      forall k | 0 <= k < N
        ensures Sub(r, k).data == rows[k]
      {
        ConcatBlockAt(rows, D, k);
      }
    }
    r
  }

  /** `x.expand(*bs, *event).reshape(-1, *event)`, failing as either step fails. */
  function ExpandFlat(x: Tensor, bs: seq<nat>, event: seq<nat>): (r: Result<Tensor, ShapeError>)
    ensures r.Ok? ==> r.value.shape == [Numel(bs)] + event
    ensures Expandable(x.shape, bs + event) && Numel(event) > 0 ==> r.Ok?
  {
    match Expand(x, bs + event)
    case None => Err(ExpandError)
    case Some(xe) =>
      FlattenBatch(xe, bs, event);
      match ReshapeInfer(xe, [], event)
      case None => Err(ReshapeError)
      case Some(f) => Ok(f)
  }

  /** The steps of `inverse_transform` up to and including the network call:
      the broadcast batch shape, and the `(N, D)` noise of the flattened rows. */
  function FlowNoise(est: Estimator, input: Tensor, condition: Tensor): (r: Result<(seq<nat>, Tensor), ShapeError>)
    requires ConditionShapeMatches(est, condition)
    ensures |input.shape| == 0 ==> r == Err(IndexError)
    ensures (|input.shape| > 0 &&
      BroadcastShapes(input.shape[..|input.shape| - 1], ConditionBatchShape(condition.shape, est.conditionShape)).None?) ==>
      r == Err(BroadcastError)
    ensures r.Ok? ==> r.value.1.shape == [Numel(r.value.0), input.shape[|input.shape| - 1]]
    ensures r.Ok? ==>
      BroadcastShapes(input.shape[..|input.shape| - 1], ConditionBatchShape(condition.shape, est.conditionShape)) ==
      Some(r.value.0)
  {
    if |input.shape| == 0 then Err(IndexError)
    else
      var C := est.conditionShape;
      var D := input.shape[|input.shape| - 1];
      var batchIn := input.shape[..|input.shape| - 1];
      var batchCond := ConditionBatchShape(condition.shape, C);
      match BroadcastShapes(batchIn, batchCond)
      case None => Err(BroadcastError)
      case Some(bs) =>
        match ExpandFlat(input, bs, [D])
        case Err(e) => Err(e)
        case Ok(fi) =>
          match ExpandFlat(condition, bs, C)
          case Err(e) => Err(e)
          case Ok(fc) => Ok((bs, TransformRowsOf(est.net.transform, fi, fc)))
  }

  /** `NFlowsFlow.inverse_transform` as written: the `(N, D)` noise is reshaped
      to the batch shape alone, which fits only when `D == 1`. */
  function InverseTransformAsWritten(est: Estimator, input: Tensor, condition: Tensor): (r: Result<Tensor, ShapeError>)
    requires ConditionShapeMatches(est, condition)
    ensures r.Ok? ==> FlowNoise(est, input, condition).Ok? && r.value.shape == FlowNoise(est, input, condition).value.0
  {
    match FlowNoise(est, input, condition)
    case Err(e) => Err(e)
    case Ok((bs, noise)) =>
      match Reshape(noise, bs)
      case None => Err(ReshapeError)
      case Some(t) => Ok(t)
  }

  /** `inverse_transform` with the noise reshaped to `(*batch_shape, D)`, keeping
      the width of each transformed row. */
  function InverseTransform(est: Estimator, input: Tensor, condition: Tensor): (r: Result<Tensor, ShapeError>)
    requires ConditionShapeMatches(est, condition)
    ensures r.Ok? <==> FlowNoise(est, input, condition).Ok?
    ensures r.Ok? ==> r.value.shape == FlowNoise(est, input, condition).value.0 + [input.shape[|input.shape| - 1]]
    ensures r.Ok? ==> r.value.data == FlowNoise(est, input, condition).value.1.data
  {
    match FlowNoise(est, input, condition)
    case Err(e) => Err(e)
    case Ok((bs, noise)) =>
      NumelSnoc(bs, input.shape[|input.shape| - 1]);
      NumelPair(Numel(bs), input.shape[|input.shape| - 1]);
      match Reshape(noise, bs + [input.shape[|input.shape| - 1]])
      case None => Err(ReshapeError)
      case Some(t) => Ok(t)
  }

  /** With a non-empty condition shape and non-empty rows, both expansions and
      both flattenings succeed: `inverse_transform` fails exactly when the batch
      shapes `input.shape[:-1]` and `condition.shape[:-len(condition_shape)]` do
      not broadcast, and otherwise has shape `(*broadcast, D)` over
      `numel(broadcast)` flattened rows. */
  lemma InverseTransformShape(est: Estimator, input: Tensor, condition: Tensor)
    requires ConditionShapeMatches(est, condition)
    requires |input.shape| > 0 && |est.conditionShape| > 0
    requires input.shape[|input.shape| - 1] > 0 && Numel(est.conditionShape) > 0
    ensures var batch := BroadcastShapes(input.shape[..|input.shape| - 1],
                                         condition.shape[..|condition.shape| - |est.conditionShape|]);
      (InverseTransform(est, input, condition).Ok? <==> batch.Some?) &&
      (batch.Some? ==>
        InverseTransform(est, input, condition).value.shape == batch.value + [input.shape[|input.shape| - 1]] &&
        FlowNoise(est, input, condition).value.1.shape[0] == Numel(batch.value))
  {
    var batchIn := input.shape[..|input.shape| - 1];
    var batchCond := ConditionBatchShape(condition.shape, est.conditionShape);
    assert batchCond == condition.shape[..|condition.shape| - |est.conditionShape|];
    var batch := BroadcastShapes(batchIn, batchCond);
    if batch.Some? {
      FlowNoiseDefined(est, input, condition, batch.value);
      var noise := FlowNoise(est, input, condition).value;
      assert noise.0 == batch.value;
      assert noise.1.shape[0] == Numel(batch.value);
    } else {
      assert FlowNoise(est, input, condition) == Err(BroadcastError);
    }
  }

  /** The expansions and flattenings after a successful broadcast all succeed. */
  lemma FlowNoiseDefined(est: Estimator, input: Tensor, condition: Tensor, bs: seq<nat>)
    requires ConditionShapeMatches(est, condition)
    requires |input.shape| > 0 && |est.conditionShape| > 0
    requires input.shape[|input.shape| - 1] > 0 && Numel(est.conditionShape) > 0
    requires BroadcastShapes(input.shape[..|input.shape| - 1],
                             ConditionBatchShape(condition.shape, est.conditionShape)) == Some(bs)
    ensures FlowNoise(est, input, condition).Ok?
  {
    var C := est.conditionShape;
    var D := input.shape[|input.shape| - 1];
    var batchIn := input.shape[..|input.shape| - 1];
    var batchCond := ConditionBatchShape(condition.shape, C);
    assert input.shape == batchIn + [D];
    assert condition.shape == batchCond + C;
    BroadcastExpandable(batchIn, batchCond);
    ExpandableAppend(batchIn, bs, [D]);
    ExpandableAppend(batchCond, bs, C);
    NumelSingle(D);
    assert ExpandFlat(input, bs, [D]).Ok?;
    assert ExpandFlat(condition, bs, C).Ok?;
  }

  /** A batch of inputs against a batch of conditions of the same size: row `b`
      of the result is the transform of `input[b]` under `condition[b]`. */
  lemma InverseTransformSameBatch(est: Estimator, input: Tensor, condition: Tensor)
    requires ConditionShapeMatches(est, condition)
    requires |input.shape| == 2 && |est.conditionShape| > 0
    requires input.shape[1] > 0 && Numel(est.conditionShape) > 0
    requires condition.shape == [input.shape[0]] + est.conditionShape
    ensures InverseTransform(est, input, condition).Ok?
    ensures InverseTransform(est, input, condition).value.shape == input.shape
    ensures forall b :: 0 <= b < input.shape[0] ==>
      Sub(InverseTransform(est, input, condition).value, b).data ==
        est.net.transform(Sub(input, b).data, Sub(condition, b).data)
  {
    var B, D, C := input.shape[0], input.shape[1], est.conditionShape;
    assert input.shape[..1] == [B];
    assert ConditionBatchShape(condition.shape, C) == [B];
    assert BroadcastShapes([B], [B]) == Some([B]) by {
      assert [B][..0] == [];
      assert BroadcastShapes([], []) == Some([]);
      assert [] + [Combine(B, B)] == [B];
    }
    assert input.shape == [B] + [D];
    ExpandSame(input);
    ExpandSame(condition);
    FlattenBatch(input, [B], [D]);
    FlattenBatch(condition, [B], C);
    NumelSingle(B);
    NumelSingle(D);
    assert ReshapeInfer(input, [], [D]) == Some(input);
    assert ExpandFlat(input, [B], [D]) == Ok(input);
    assert ReshapeInfer(condition, [], C) == Some(condition);
    assert ExpandFlat(condition, [B], C) == Ok(condition);
    var noise := TransformRowsOf(est.net.transform, input, condition);
    assert FlowNoise(est, input, condition) == Ok(([B], noise));
    NumelPair(B, D);
    assert InverseTransform(est, input, condition) == Ok(noise);
  }

  /** One input row against a batch of conditions: the input is broadcast along
      the batch, and row `b` of the result is its transform under `condition[b]`. */
  lemma InverseTransformBroadcastInput(est: Estimator, input: Tensor, condition: Tensor)
    requires ConditionShapeMatches(est, condition)
    requires |input.shape| == 1 && |est.conditionShape| > 0
    requires input.shape[0] > 0 && Numel(est.conditionShape) > 0
    requires |condition.shape| == |est.conditionShape| + 1
    ensures InverseTransform(est, input, condition).Ok?
    ensures InverseTransform(est, input, condition).value.shape == [condition.shape[0], input.shape[0]]
    ensures forall b :: 0 <= b < condition.shape[0] ==>
      Sub(InverseTransform(est, input, condition).value, b).data ==
        est.net.transform(input.data, Sub(condition, b).data)
  {
    var B, D, C := condition.shape[0], input.shape[0], est.conditionShape;
    assert input.shape[..0] == [];
    assert ConditionBatchShape(condition.shape, C) == [B];
    assert BroadcastShapes([], [B]) == Some([B]);
    assert input.shape == [D];
    ExpandLeadingRows(input, B);
    var xi := Expand(input, [B] + [D]).value;
    assert [B] + [D] == [B, D];
    assert condition.shape == [B] + C;
    ExpandSame(condition);
    FlattenBatch(xi, [B], [D]);
    FlattenBatch(condition, [B], C);
    NumelSingle(B);
    NumelSingle(D);
    assert ReshapeInfer(xi, [], [D]) == Some(xi);
    assert ExpandFlat(input, [B], [D]) == Ok(xi);
    assert ReshapeInfer(condition, [], C) == Some(condition);
    assert ExpandFlat(condition, [B], C) == Ok(condition);
    var noise := TransformRowsOf(est.net.transform, xi, condition);
    assert FlowNoise(est, input, condition) == Ok(([B], noise));
    NumelPair(B, D);
    assert InverseTransform(est, input, condition) == Ok(noise);
  }

  /** A batch of inputs against one condition: the condition is broadcast along
      the batch, and row `b` of the result is the transform of `input[b]`. */
  lemma InverseTransformBroadcastCondition(est: Estimator, input: Tensor, condition: Tensor)
    requires ConditionShapeMatches(est, condition)
    requires |input.shape| == 2 && |est.conditionShape| > 0
    requires input.shape[1] > 0 && Numel(est.conditionShape) > 0
    requires condition.shape == est.conditionShape
    ensures InverseTransform(est, input, condition).Ok?
    ensures InverseTransform(est, input, condition).value.shape == input.shape
    ensures forall b :: 0 <= b < input.shape[0] ==>
      Sub(InverseTransform(est, input, condition).value, b).data ==
        est.net.transform(Sub(input, b).data, condition.data)
  {
    var B, D, C := input.shape[0], input.shape[1], est.conditionShape;
    assert input.shape[..1] == [B];
    assert ConditionBatchShape(condition.shape, C) == [];
    assert BroadcastShapes([B], []) == Some([B]);
    assert input.shape == [B] + [D];
    ExpandSame(input);
    ExpandLeadingRows(condition, B);
    var xc := Expand(condition, [B] + C).value;
    FlattenBatch(input, [B], [D]);
    FlattenBatch(xc, [B], C);
    NumelSingle(B);
    NumelSingle(D);
    assert ReshapeInfer(input, [], [D]) == Some(input);
    assert ExpandFlat(input, [B], [D]) == Ok(input);
    assert ReshapeInfer(xc, [], C) == Some(xc);
    assert ExpandFlat(condition, [B], C) == Ok(xc);
    var noise := TransformRowsOf(est.net.transform, input, xc);
    assert FlowNoise(est, input, condition) == Ok(([B], noise));
    NumelPair(B, D);
    assert InverseTransform(est, input, condition) == Ok(noise);
  }

  /** `(b1, 1, D)` inputs against `(b2, *condition_shape)` conditions give `(b1, b2, D)`. */
  lemma InverseTransformOuterBatch(est: Estimator, input: Tensor, condition: Tensor)
    requires ConditionShapeMatches(est, condition)
    requires |input.shape| == 3 && input.shape[1] == 1 && input.shape[2] > 0
    requires |est.conditionShape| > 0 && Numel(est.conditionShape) > 0
    requires |condition.shape| == |est.conditionShape| + 1
    ensures InverseTransform(est, input, condition).Ok?
    ensures InverseTransform(est, input, condition).value.shape == [input.shape[0], condition.shape[0], input.shape[2]]
  {
    var b1, b2 := input.shape[0], condition.shape[0];
    assert input.shape[..2] == [b1, 1];
    assert condition.shape[..|condition.shape| - |est.conditionShape|] == [b2];
    assert BroadcastShapes([b1, 1], [b2]) == Some([b1, b2]) by {
      assert [b1, 1][..1] == [b1] && [b2][..0] == [];
      assert BroadcastShapes([b1], []) == Some([b1]);
      assert [b1] + [Combine(1, b2)] == [b1, b2];
    }
    InverseTransformShape(est, input, condition);
  }

  /** `(b1, D)` inputs against `(b2, 1, *condition_shape)` conditions give `(b2, b1, D)`. */
  lemma InverseTransformOuterBatchSwapped(est: Estimator, input: Tensor, condition: Tensor)
    requires ConditionShapeMatches(est, condition)
    requires |input.shape| == 2 && input.shape[1] > 0
    requires |est.conditionShape| > 0 && Numel(est.conditionShape) > 0
    requires |condition.shape| == |est.conditionShape| + 2 && condition.shape[1] == 1
    ensures InverseTransform(est, input, condition).Ok?
    ensures InverseTransform(est, input, condition).value.shape == [condition.shape[0], input.shape[0], input.shape[1]]
  {
    var b1, b2 := input.shape[0], condition.shape[0];
    assert input.shape[..1] == [b1];
    assert condition.shape[..|condition.shape| - |est.conditionShape|] == [b2, 1];
    assert BroadcastShapes([b1], [b2, 1]) == Some([b2, b1]) by {
      assert [b1][..0] == [] && [b2, 1][..1] == [b2];
      assert BroadcastShapes([], [b2]) == Some([b2]);
      assert [b2] + [Combine(b1, 1)] == [b2, b1];
    }
    InverseTransformShape(est, input, condition);
  }

  /** `(b1, D)` inputs against `(b2, *condition_shape)` conditions with `b1 != b2`,
      neither of them 1, do not broadcast. */
  lemma InverseTransformMismatch(est: Estimator, input: Tensor, condition: Tensor)
    requires ConditionShapeMatches(est, condition)
    requires |input.shape| == 2 && |est.conditionShape| > 0
    requires |condition.shape| == |est.conditionShape| + 1
    requires input.shape[0] != condition.shape[0] && input.shape[0] != 1 && condition.shape[0] != 1
    ensures InverseTransform(est, input, condition) == Err(BroadcastError)
    ensures InverseTransformAsWritten(est, input, condition) == Err(BroadcastError)
  {
    var b1, b2 := input.shape[0], condition.shape[0];
    assert input.shape[..1] == [b1];
    assert condition.shape[..|condition.shape| - |est.conditionShape|] == [b2];
    assert BroadcastShapes([b1], [b2]) == None;
  }

  /** As written, `inverse_transform` fails on every non-empty batch of rows
      wider than one value, because `(N, D)` noise does not fit the batch shape;
      for `D == 1` it returns the same buffer as the corrected version. */
  lemma InverseTransformAsWrittenRejectsWideRows(est: Estimator, input: Tensor, condition: Tensor)
    requires ConditionShapeMatches(est, condition)
    requires FlowNoise(est, input, condition).Ok?
    ensures var bs := FlowNoise(est, input, condition).value.0;
      var D := input.shape[|input.shape| - 1];
      (D != 1 && Numel(bs) > 0 ==> InverseTransformAsWritten(est, input, condition) == Err(ReshapeError)) &&
      (D == 1 ==> InverseTransformAsWritten(est, input, condition).Ok? &&
                  InverseTransformAsWritten(est, input, condition).value.data ==
                  InverseTransform(est, input, condition).value.data)
  {
    var bs := FlowNoise(est, input, condition).value.0;
    var D := input.shape[|input.shape| - 1];
    NumelPair(Numel(bs), D);
    if D != 1 && Numel(bs) > 0 {
      if D == 0 {
        assert Numel(bs) * D == 0;
      } else {
        MulLeft(2, D, Numel(bs));
      }
    }
  }

  /** A concrete instance: two-wide rows `(3, 2)` with conditions `(3, 1)` and
      condition shape `(1,)`. The as-written method fails; the corrected one
      returns `(3, 2)`. */
  lemma InverseTransformAsWrittenCounterexample(est: Estimator, input: Tensor, condition: Tensor)
    requires est.conditionShape == [1] && input.shape == [3, 2] && condition.shape == [3, 1]
    ensures InverseTransformAsWritten(est, input, condition) == Err(ReshapeError)
    ensures InverseTransform(est, input, condition).Ok?
    ensures InverseTransform(est, input, condition).value.shape == [3, 2]
  {
    assert ConditionShapeMatches(est, condition);
    NumelSingle(1);
    InverseTransformSameBatch(est, input, condition);
    InverseTransformShape(est, input, condition);
    assert input.shape[..1] == [3];
    assert BroadcastShapes([3], [3]) == Some([3]);
    NumelSingle(3);
    InverseTransformAsWrittenRejectsWideRows(est, input, condition);
  }
}
