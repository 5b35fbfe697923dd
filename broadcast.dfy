/** PyTorch broadcasting: `torch.broadcast_shapes` of two batch shapes, and
    `Tensor.expand`, which reads a tensor under a larger shape by repeating its
    size-1 axes and any new leading axes. */
module Broadcast {
  import opened Outcomes
  import opened Tensors
  import opened Seqs

  function Max(x: nat, y: nat): nat { if x < y then y else x }

  /** Two aligned sizes broadcast when they are equal or one of them is 1. */
  predicate Compatible(x: nat, y: nat) { x == y || x == 1 || y == 1 }

  /** The broadcast size: the one that is not 1 (so a 1 against a 0 gives 0). */
  function Combine(x: nat, y: nat): nat { if x == 1 then y else x }

  /** `torch.broadcast_shapes(a, b)`: sizes are paired from the right; a missing
      size counts as 1; `None` is PyTorch's "shapes cannot be broadcast" error. */
  function BroadcastShapes(a: seq<nat>, b: seq<nat>): (r: Option<seq<nat>>)
    ensures r.Some? ==> |r.value| == Max(|a|, |b|)
    decreases |a| + |b|
  {
    if |a| == 0 then Some(b)
    else if |b| == 0 then Some(a)
    else
      var x, y := a[|a| - 1], b[|b| - 1];
      if !Compatible(x, y) then None
      else
        match BroadcastShapes(a[..|a| - 1], b[..|b| - 1])
        case None => None
        case Some(p) => Some(p + [Combine(x, y)])
  }

  /** `k` sizes of 1. */
  function Ones(k: nat): (r: seq<nat>)
    ensures |r| == k && forall i :: 0 <= i < k ==> r[i] == 1
  {
    seq(k, _ => 1)
  }

  /** A shape padded on the left with 1s up to rank `n`. */
  function PadLeft(a: seq<nat>, n: nat): (r: seq<nat>)
    requires |a| <= n
    ensures |r| == n
    ensures forall i :: 0 <= i < n - |a| ==> r[i] == 1
    ensures forall i :: 0 <= i < |a| ==> r[n - |a| + i] == a[i]
  {
    Ones(n - |a|) + a
  }

  /** Size `i` of shape `a` once it is padded on the left with 1s to rank `n`. */
  function Aligned(a: seq<nat>, n: nat, i: nat): nat
    requires |a| <= n && i < n
  {
    if i < n - |a| then 1 else a[i - (n - |a|)]
  }

  /** Reference definition of broadcastability: pad both shapes to one rank and
      require every aligned pair of sizes to be compatible. */
  predicate Broadcastable(a: seq<nat>, b: seq<nat>)
  {
    var n := Max(|a|, |b|);
    forall i :: 0 <= i < n ==> Compatible(Aligned(a, n, i), Aligned(b, n, i))
  }

  /** Reference definition of the broadcast shape, size by size. */
  function Broadcasted(a: seq<nat>, b: seq<nat>): (r: seq<nat>)
    ensures |r| == Max(|a|, |b|)
  {
    var n := Max(|a|, |b|);
    seq(n, i requires 0 <= i < n => Combine(Aligned(a, n, i), Aligned(b, n, i)))
  }

  /** Against an empty shape, only the other shape's sizes count. */
  lemma BroadcastEmpty(a: seq<nat>, b: seq<nat>)
    requires |a| == 0 || |b| == 0
    ensures Broadcastable(a, b)
    ensures Broadcasted(a, b) == if |a| == 0 then b else a
  {
  }

  /** Dropping the last size of both shapes drops the last aligned pair. */
  lemma BroadcastStep(a: seq<nat>, b: seq<nat>)
    requires |a| > 0 && |b| > 0
    ensures var a', b' := a[..|a| - 1], b[..|b| - 1];
      var x, y := a[|a| - 1], b[|b| - 1];
      (Broadcastable(a, b) <==> Broadcastable(a', b') && Compatible(x, y)) &&
      Broadcasted(a, b) == Broadcasted(a', b') + [Combine(x, y)]
  {
    var a', b' := a[..|a| - 1], b[..|b| - 1];
    var n := Max(|a|, |b|);
    assert Max(|a'|, |b'|) == n - 1;
    assert forall i :: 0 <= i < n - 1 ==> Aligned(a, n, i) == Aligned(a', n - 1, i) && Aligned(b, n, i) == Aligned(b', n - 1, i);
    assert Aligned(a, n, n - 1) == a[|a| - 1] && Aligned(b, n, n - 1) == b[|b| - 1];
    assert Broadcasted(a, b) == Broadcasted(a', b') + [Combine(a[|a| - 1], b[|b| - 1])];
    var m := n - 1;
    if Broadcastable(a, b) {
      assert Compatible(Aligned(a, n, m), Aligned(b, n, m));
      forall i | 0 <= i < m
        ensures Compatible(Aligned(a', m, i), Aligned(b', m, i))
      {
        assert Compatible(Aligned(a, n, i), Aligned(b, n, i));
      }
    }
    if Broadcastable(a', b') && Compatible(a[|a| - 1], b[|b| - 1]) {
      forall i | 0 <= i < n
        ensures Compatible(Aligned(a, n, i), Aligned(b, n, i))
      {
        if i < n - 1 {
          assert Compatible(Aligned(a', n - 1, i), Aligned(b', n - 1, i));
        }
      }
    }
  }

  /** The recursive right-to-left computation agrees with the size-by-size
      reference in both directions: it succeeds exactly when the shapes are
      broadcastable, and then yields the reference shape. */
  lemma {:induction false} BroadcastShapesCorrect(a: seq<nat>, b: seq<nat>)
    ensures BroadcastShapes(a, b).Some? <==> Broadcastable(a, b)
    ensures BroadcastShapes(a, b).Some? ==> BroadcastShapes(a, b).value == Broadcasted(a, b)
    decreases |a| + |b|
  {
    if |a| == 0 || |b| == 0 {
      BroadcastEmpty(a, b);
    } else {
      BroadcastShapesCorrect(a[..|a| - 1], b[..|b| - 1]);
      BroadcastStep(a, b);
    }
  }

  /** Broadcasting does not depend on the order of its arguments. */
  lemma BroadcastShapesCommutes(a: seq<nat>, b: seq<nat>)
    ensures BroadcastShapes(a, b) == BroadcastShapes(b, a)
  {
    BroadcastShapesCorrect(a, b);
    BroadcastShapesCorrect(b, a);
    var n := Max(|a|, |b|);
    assert Max(|b|, |a|) == n;
    assert Broadcastable(a, b) <==> Broadcastable(b, a);
    if Broadcastable(a, b) {
      forall i | 0 <= i < n
        ensures Broadcasted(a, b)[i] == Broadcasted(b, a)[i]
      {
        assert Compatible(Aligned(a, n, i), Aligned(b, n, i));
      }
    }
  }

  /** `expand` may turn `s` into `t`: `t` has at least the rank of `s`, and every
      size of `s` equals the aligned size of `t` or is 1. */
  predicate Expandable(s: seq<nat>, t: seq<nat>)
  {
    |s| <= |t| && forall i :: 0 <= i < |s| ==> s[i] == 1 || s[i] == t[|t| - |s| + i]
  }

  /** Both operands expand to their broadcast shape. */
  lemma BroadcastExpandable(a: seq<nat>, b: seq<nat>)
    requires BroadcastShapes(a, b).Some?
    ensures Expandable(a, BroadcastShapes(a, b).value)
    ensures Expandable(b, BroadcastShapes(a, b).value)
  {
    BroadcastShapesCorrect(a, b);
    var n := Max(|a|, |b|);
    var c := BroadcastShapes(a, b).value;
    assert c == Broadcasted(a, b);
    forall i | 0 <= i < |a|
      ensures a[i] == 1 || a[i] == c[n - |a| + i]
    {
      var k := n - |a| + i;
      assert Aligned(a, n, k) == a[i];
      assert c[k] == Combine(a[i], Aligned(b, n, k));
      assert Compatible(a[i], Aligned(b, n, k));
    }
    forall i | 0 <= i < |b|
      ensures b[i] == 1 || b[i] == c[n - |b| + i]
    {
      var k := n - |b| + i;
      assert Aligned(b, n, k) == b[i];
      assert c[k] == Combine(Aligned(a, n, k), b[i]);
      assert Compatible(Aligned(a, n, k), b[i]);
    }
  }

  /** Appending the same trailing sizes keeps a shape expandable. */
  lemma ExpandableAppend(s: seq<nat>, t: seq<nat>, e: seq<nat>)
    requires Expandable(s, t)
    ensures Expandable(s + e, t + e)
  {
    forall i | 0 <= i < |s + e|
      ensures (s + e)[i] == 1 || (s + e)[i] == (t + e)[|t + e| - |s + e| + i]
    {
      if i >= |s| {
        assert (t + e)[|t + e| - |s + e| + i] == e[i - |s|];
      }
    }
  }

  lemma {:induction false} NumelOnes(k: nat)
    ensures Numel(Ones(k)) == 1
  {
    if k > 0 {
      assert Ones(k)[1..] == Ones(k - 1);
      NumelOnes(k - 1);
    }
  }

  lemma NumelPadLeft(a: seq<nat>, n: nat)
    requires |a| <= n
    ensures Numel(PadLeft(a, n)) == Numel(a)
  {
    var o := Ones(n - |a|);
    assert PadLeft(a, n) == o + a;
    NumelAppend(o, a);
    NumelOnes(n - |a|);
    assert Numel(o + a) == 1 * Numel(a);
  }

  /** Blocks of one width `w` placed one after the other: block `j` occupies
      `[j * w, j * w + w)` of the concatenation. */
  lemma {:induction false} ConcatBlockAt(blocks: seq<seq<real>>, w: nat, j: nat)
    requires forall i :: 0 <= i < |blocks| ==> |blocks[i]| == w
    requires j < |blocks|
    ensures |Concat(blocks)| == |blocks| * w
    ensures j * w + w <= |Concat(blocks)| && Concat(blocks)[j * w .. j * w + w] == blocks[j]
  {
    ConcatUniformLength(blocks, w);
    RowInBounds(j, |blocks|, w);
    if j > 0 {
      ConcatBlockAt(blocks[1..], w, j - 1);
      Distrib(j - 1, 1, w);
      assert Concat(blocks) == blocks[0] + Concat(blocks[1..]);
    }
  }

  /** The buffer of `expand` for shapes of equal rank: along the leading axis,
      block `j` of the result is the expansion of source block `j`, or of block 0
      when the source size there is 1. */
  function ExpandData(src: seq<real>, s: seq<nat>, t: seq<nat>): (r: seq<real>)
    requires |s| == |t| && |src| == Numel(s)
    requires forall i :: 0 <= i < |s| ==> s[i] == 1 || s[i] == t[i]
    ensures |r| == Numel(t)
    decreases |t|, 1
  {
    if |t| == 0 then src
    else
      var blocks := seq(t[0], j requires 0 <= j < t[0] => ExpandBlock(src, s, t, j));
      ConcatUniformLength(blocks, Numel(t[1..]));
      Concat(blocks)
  }

  /** Block `j` of `ExpandData(src, s, t)` along the leading axis. */
  function ExpandBlock(src: seq<real>, s: seq<nat>, t: seq<nat>, j: nat): (r: seq<real>)
    requires |s| == |t| > 0 && |src| == Numel(s) && j < t[0]
    requires forall i :: 0 <= i < |s| ==> s[i] == 1 || s[i] == t[i]
    ensures |r| == Numel(t[1..])
    decreases |t|, 0
  {
    var p := Numel(s[1..]);
    var o := if s[0] == 1 then 0 else j;
    assert |src| == s[0] * p;
    RowInBounds(o, s[0], p);
    ExpandData(src[o * p .. o * p + p], s[1..], t[1..])
  }

  lemma ExpandDataBlocks(src: seq<real>, s: seq<nat>, t: seq<nat>)
    requires |s| == |t| > 0 && |src| == Numel(s)
    requires forall i :: 0 <= i < |s| ==> s[i] == 1 || s[i] == t[i]
    ensures var blocks := seq(t[0], j requires 0 <= j < t[0] => ExpandBlock(src, s, t, j));
      ExpandData(src, s, t) == Concat(blocks) &&
      forall j :: 0 <= j < t[0] ==> |blocks[j]| == Numel(t[1..])
  {
  }

  /** `x.expand(target)`; `None` is PyTorch's error for a size that is neither
      equal to the target size nor 1. */
  function Expand(x: Tensor, target: seq<nat>): (r: Option<Tensor>)
    ensures r.Some? <==> Expandable(x.shape, target)
    ensures r.Some? ==> r.value.shape == target
  {
    if Expandable(x.shape, target) then
      var ps := PadLeft(x.shape, |target|);
      NumelPadLeft(x.shape, |target|);
      Some(TensorData(target, ExpandData(x.data, ps, target)))
    else
      None
  }

  lemma PadLeftSame(a: seq<nat>)
    ensures PadLeft(a, |a|) == a
  {
    assert Ones(0) == [];
  }

  lemma ExpandableTail(s: seq<nat>, t: seq<nat>)
    requires |s| == |t| > 0 && Expandable(s, t)
    ensures s[0] == 1 || s[0] == t[0]
    ensures Expandable(s[1..], t[1..])
    ensures forall i :: 0 <= i < |s| ==> s[i] == 1 || s[i] == t[i]
  {
    forall i | 0 <= i < |s| - 1
      ensures s[1..][i] == 1 || s[1..][i] == t[1..][i]
    {
      assert s[i + 1] == 1 || s[i + 1] == t[i + 1];
    }
  }

  /** Slice `j` of an expanded tensor is the expansion of the source slice `j`,
      or of slice 0 when the source has size 1 on that axis. */
  lemma ExpandSub(x: Tensor, target: seq<nat>, j: nat)
    requires |x.shape| == |target| && Expandable(x.shape, target) && 0 < |target| && j < target[0]
    ensures var o := if x.shape[0] == 1 then 0 else j;
      o < x.shape[0] && Expandable(x.shape[1..], target[1..]) &&
      Sub(Expand(x, target).value, j) == Expand(Sub(x, o), target[1..]).value
  {
    var o := if x.shape[0] == 1 then 0 else j;
    ExpandableTail(x.shape, target);
    ExpandSubOuter(x, target, j);
    ExpandSubInner(x, target, j);
  }

  /** Slice `j` of the expansion is block `j` of its buffer. */
  lemma ExpandSubOuter(x: Tensor, target: seq<nat>, j: nat)
    requires |x.shape| == |target| > 0 && j < target[0]
    requires forall i :: 0 <= i < |x.shape| ==> x.shape[i] == 1 || x.shape[i] == target[i]
    requires Expandable(x.shape, target)
    ensures Sub(Expand(x, target).value, j).data == ExpandBlock(x.data, x.shape, target, j)
  {
    var s := x.shape;
    PadLeftSame(s);
    var e := Expand(x, target).value;
    assert e.data == ExpandData(x.data, s, target);
    var w := Numel(target[1..]);
    var blocks := seq(target[0], k requires 0 <= k < target[0] => ExpandBlock(x.data, s, target, k));
    ExpandDataBlocks(x.data, s, target);
    ConcatBlockAt(blocks, w, j);
  }

  /** The expansion of source slice `o` is block `j` of the expanded buffer. */
  lemma ExpandSubInner(x: Tensor, target: seq<nat>, j: nat)
    requires |x.shape| == |target| > 0 && j < target[0]
    requires forall i :: 0 <= i < |x.shape| ==> x.shape[i] == 1 || x.shape[i] == target[i]
    requires Expandable(x.shape[1..], target[1..])
    ensures var o := if x.shape[0] == 1 then 0 else j;
      o < x.shape[0] &&
      Expand(Sub(x, o), target[1..]).value.data == ExpandBlock(x.data, x.shape, target, j)
  {
    var o := if x.shape[0] == 1 then 0 else j;
    var row := Sub(x, o);
    assert ExpandBlock(x.data, x.shape, target, j) == ExpandData(row.data, x.shape[1..], target[1..]) by {
      var p := Numel(x.shape[1..]);
      assert row.data == x.data[o * p .. o * p + p];
    }
    assert Expand(row, target[1..]).value.data == ExpandData(row.data, x.shape[1..], target[1..]) by {
      PadLeftSame(x.shape[1..]);
    }
  }

  /** Expanding a tensor to its own shape changes nothing. */
  lemma {:induction false} ExpandDataSame(src: seq<real>, s: seq<nat>)
    requires |src| == Numel(s)
    ensures ExpandData(src, s, s) == src
    decreases |s|
  {
    if |s| > 0 {
      var p := Numel(s[1..]);
      assert |src| == s[0] * p;
      var blocks := seq(s[0], j requires 0 <= j < s[0] => ExpandBlock(src, s, s, j));
      ExpandDataBlocks(src, s, s);
      forall j | 0 <= j < s[0]
        ensures j * p + p <= |src| && blocks[j] == src[j * p .. j * p + p]
      {
        RowInBounds(j, s[0], p);
        ExpandDataSame(src[j * p .. j * p + p], s[1..]);
      }
      ConcatOfBlocks(src, s[0], p, blocks);
    }
  }

  /** Cutting a buffer into `n` blocks of width `p` and concatenating them gives it back. */
  lemma {:induction false} ConcatOfBlocks(src: seq<real>, n: nat, p: nat, blocks: seq<seq<real>>)
    requires |src| == n * p && |blocks| == n
    requires forall j :: 0 <= j < n ==> j * p + p <= |src| && blocks[j] == src[j * p .. j * p + p]
    ensures Concat(blocks) == src
  {
    if n > 0 {
      assert blocks[0] == src[..p];
      forall j | 0 <= j < n - 1
        ensures j * p + p <= |src[p..]| && blocks[1..][j] == src[p..][j * p .. j * p + p]
      {
        Distrib(j, 1, p);
        assert blocks[1..][j] == blocks[j + 1];
      }
      Distrib(n - 1, 1, p);
      ConcatOfBlocks(src[p..], n - 1, p, blocks[1..]);
    }
  }

  lemma ExpandSame(x: Tensor)
    ensures Expand(x, x.shape) == Some(x)
  {
    assert PadLeft(x.shape, |x.shape|) == x.shape;
    ExpandDataSame(x.data, x.shape);
  }

  /** Expanding along one new leading axis of size `n` lays out the same buffer
      as `repeat(n, 1, ..., 1)`: `n` copies of the source, one after the other. */
  lemma ExpandLeadingIsTile(x: Tensor, n: nat)
    ensures Expand(x, [n] + x.shape).Some?
    ensures Expand(x, [n] + x.shape).value.data == Tile(x.data, n)
  {
    var t := [n] + x.shape;
    var s := [1] + x.shape;
    assert Expandable(x.shape, t) by {
      forall i | 0 <= i < |x.shape|
        ensures x.shape[i] == 1 || x.shape[i] == t[|t| - |x.shape| + i]
      {
        assert t[1 + i] == x.shape[i];
      }
    }
    assert PadLeft(x.shape, |t|) == s by {
      assert Ones(1) == [1];
    }
    LeadingShapes(x.shape, n);
    assert Expand(x, t) == Some(TensorData(t, ExpandData(x.data, s, t)));
    var blocks := seq(n, j requires 0 <= j < n => ExpandBlock(x.data, s, t, j));
    ExpandDataBlocks(x.data, s, t);
    forall j | 0 <= j < n
      ensures blocks[j] == x.data
    {
      LeadingBlock(x, n, j);
    }
    ConcatCopies(x.data, n, blocks);
  }

  /** Each row along a new leading axis of `n` copies is the source buffer. */
  lemma ExpandLeadingRows(x: Tensor, n: nat)
    ensures Expand(x, [n] + x.shape).Some?
    ensures forall b :: 0 <= b < n ==> Sub(Expand(x, [n] + x.shape).value, b).data == x.data
  {
    ExpandLeadingIsTile(x, n);
    var e := Expand(x, [n] + x.shape).value;
    assert e.shape[1..] == x.shape;
    forall b | 0 <= b < n
      ensures Sub(e, b).data == x.data
    {
      TileBlock(x.data, n, b);
    }
  }

  lemma LeadingShapes(sh: seq<nat>, n: nat)
    ensures ([1] + sh)[1..] == sh && ([n] + sh)[1..] == sh
    ensures Numel([1] + sh) == Numel(sh)
    ensures forall i :: 0 <= i < |[1] + sh| ==> ([1] + sh)[i] == 1 || ([1] + sh)[i] == ([n] + sh)[i]
  {
    assert ([1] + sh)[1..] == sh;
  }

  /** Every block along a new leading axis is the whole source. */
  lemma LeadingBlock(x: Tensor, n: nat, j: nat)
    requires j < n && Numel([1] + x.shape) == Numel(x.shape)
    requires forall i :: 0 <= i < |[1] + x.shape| ==> ([1] + x.shape)[i] == 1 || ([1] + x.shape)[i] == ([n] + x.shape)[i]
    ensures ExpandBlock(x.data, [1] + x.shape, [n] + x.shape, j) == x.data
  {
    LeadingShapes(x.shape, n);
    var p := Numel(x.shape);
    assert x.data[0 * p .. 0 * p + p] == x.data;
    ExpandDataSame(x.data, x.shape);
  }

  lemma {:induction false} ConcatCopies(d: seq<real>, n: nat, blocks: seq<seq<real>>)
    requires |blocks| == n && forall j :: 0 <= j < n ==> blocks[j] == d
    ensures Concat(blocks) == Tile(d, n)
  {
    if n > 0 {
      ConcatCopies(d, n - 1, blocks[1..]);
    }
  }
}
