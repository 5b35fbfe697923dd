/** Tensors as a shape plus a flat row-major buffer, and the buffer-level meaning
    of the PyTorch operations the density estimator uses: `reshape` (with and
    without an inferred `-1` size), indexing along the leading axis, `repeat`
    along the leading axis, and elementwise negation. */
module Tensors {
  import opened Outcomes

  /** Number of elements of a shape; the empty shape `()` has one element. */
  function Numel(shape: seq<nat>): nat
  {
    if |shape| == 0 then 1 else shape[0] * Numel(shape[1..])
  }

  /** A shape and its row-major buffer; the buffer always holds `Numel(shape)` values. */
  datatype TensorData = TensorData(shape: seq<nat>, data: seq<real>)

  type Tensor = t: TensorData | |t.data| == Numel(t.shape) witness TensorData([], [0.0])

  lemma {:induction false} NumelAppend(a: seq<nat>, b: seq<nat>)
    ensures Numel(a + b) == Numel(a) * Numel(b)
  {
    if |a| == 0 {
      assert a + b == b;
    } else {
      assert (a + b)[1..] == a[1..] + b;
      NumelAppend(a[1..], b);
      assert Numel(a + b) == a[0] * (Numel(a[1..]) * Numel(b));
      MulAssoc(a[0], Numel(a[1..]), Numel(b));
    }
  }

  lemma NumelPair(a: nat, b: nat)
    ensures Numel([a, b]) == a * b
  {
    assert [a, b][1..] == [b];
    assert [b][1..] == [];
    assert Numel([b]) == b * 1;
  }

  lemma MulAssoc(x: int, y: int, z: int)
    ensures x * (y * z) == (x * y) * z
  {
  }

  /** Row `i` of a matrix of `n` rows of width `p` lies inside its buffer. */
  lemma RowInBounds(i: nat, n: nat, p: nat)
    requires i < n
    ensures i * p + p <= n * p
  {
    assert (i + 1) * p == i * p + p;
    MulLeft(i + 1, n, p);
  }

  lemma MulLeft(a: nat, b: nat, p: nat)
    requires a <= b
    ensures a * p <= b * p
  {
  }

  /** `t.reshape(shape)`: the same buffer read under a new shape; fails unless the
      element counts agree. No axis is ever permuted. */
  function Reshape(t: Tensor, shape: seq<nat>): (r: Option<Tensor>)
    ensures r.Some? <==> Numel(shape) == Numel(t.shape)
    ensures r.Some? ==> r.value.shape == shape && r.value.data == t.data
  {
    if Numel(shape) == Numel(t.shape) then Some(TensorData(shape, t.data)) else None
  }

  /** `t.reshape(*before, -1, *after)`: the `-1` size is inferred; PyTorch refuses
      the reshape when the known sizes multiply to 0 or do not divide the count. */
  function ReshapeInfer(t: Tensor, before: seq<nat>, after: seq<nat>): (r: Option<Tensor>)
    ensures r.Some? <==> Numel(before) * Numel(after) > 0 && Numel(t.shape) % (Numel(before) * Numel(after)) == 0
    ensures r.Some? ==> r.value.data == t.data
    ensures r.Some? ==> r.value.shape == before + [Numel(t.shape) / (Numel(before) * Numel(after))] + after
  {
    var known := Numel(before) * Numel(after);
    if known > 0 && Numel(t.shape) % known == 0 then
      var shape := before + [Numel(t.shape) / known] + after;
      NumelAppend(before + [Numel(t.shape) / known], after);
      NumelAppend(before, [Numel(t.shape) / known]);
      assert Numel([Numel(t.shape) / known]) == Numel(t.shape) / known by {
        assert [Numel(t.shape) / known][1..] == [];
      }
      DivExact(Numel(t.shape), Numel(before), Numel(after));
      Some(TensorData(shape, t.data))
    else
      None
  }

  lemma DivExact(n: nat, a: nat, b: nat)
    requires a * b > 0 && n % (a * b) == 0
    ensures a * (n / (a * b)) * b == n
  {
    var q := n / (a * b);
    assert n == (a * b) * q;
    assert a * q * b == (a * b) * q;
  }

  /** `t[i]`: the `i`-th slice along the leading axis. */
  function Sub(t: Tensor, i: nat): (r: Tensor)
    requires |t.shape| > 0 && i < t.shape[0]
    ensures r.shape == t.shape[1..]
    ensures var p := Numel(t.shape[1..]); i * p + p <= |t.data| && r.data == t.data[i * p .. i * p + p]
  {
    var p := Numel(t.shape[1..]);
    assert |t.data| == t.shape[0] * p;
    RowInBounds(i, t.shape[0], p);
    var d := t.data[i * p .. i * p + p];
    assert |d| == p;
    TensorData(t.shape[1..], d)
  }

  lemma Distrib(x: int, y: int, p: int)
    ensures (x + y) * p == x * p + y * p
  {
  }

  /** `t[s][b]` of a tensor with at least two axes is the `(s * B + b)`-th block of
      `Numel(shape[2..])` values of the buffer. */
  lemma SubSub(t: Tensor, s: nat, b: nat)
    requires |t.shape| >= 2 && s < t.shape[0] && b < t.shape[1]
    ensures var p := Numel(t.shape[2..]);
      (s * t.shape[1] + b) * p + p <= |t.data| &&
      Sub(Sub(t, s), b).data == t.data[(s * t.shape[1] + b) * p .. (s * t.shape[1] + b) * p + p]
  {
    var B, p := t.shape[1], Numel(t.shape[2..]);
    var bp := Numel(t.shape[1..]);
    assert t.shape[1..][1..] == t.shape[2..];
    assert bp == B * p;
    var off, inner := s * bp, b * p;
    assert (s * B + b) * p == off + inner && inner + p <= bp by {
      RowInBounds(b, B, p);
      Distrib(s * B, b, p);
      MulAssoc(s, B, p);
    }
    SubSubAt(t, s, b, bp, p, off, inner);
  }

  lemma SubSubAt(t: Tensor, s: nat, b: nat, bp: nat, p: nat, off: nat, inner: nat)
    requires |t.shape| >= 2 && s < t.shape[0] && b < t.shape[1]
    requires bp == Numel(t.shape[1..]) && p == Numel(t.shape[2..])
    requires off == s * bp && inner == b * p && inner + p <= bp
    ensures off + inner + p <= |t.data| && Sub(Sub(t, s), b).data == t.data[off + inner .. off + inner + p]
  {
    var row := Sub(t, s);
    assert row.shape[1..] == t.shape[2..];
    SliceOfSlice(t.data, off, bp, inner, p);
  }

  /** A slice of a slice is a slice. */
  lemma SliceOfSlice(d: seq<real>, off: nat, len: nat, a: nat, l: nat)
    requires off + len <= |d| && a + l <= len
    ensures d[off .. off + len][a .. a + l] == d[off + a .. off + a + l]
  {
    var x, y := d[off .. off + len][a .. a + l], d[off + a .. off + a + l];
    forall i | 0 <= i < l
      ensures x[i] == y[i]
    {
      assert x[i] == d[off + a + i];
    }
  }

  /** `n` copies of a buffer, one after the other. */
  function Tile(d: seq<real>, n: nat): (r: seq<real>)
    ensures |r| == n * |d|
  {
    if n == 0 then [] else d + Tile(d, n - 1)
  }

  lemma ModShift(k: nat, m: nat)
    requires 0 < m <= k
    ensures (k - m) % m == k % m
  {
    var q, r := k / m, k % m;
    assert k == q * m + r;
    assert q != 0;
    assert k - m == (q - 1) * m + r;
    UniqueMod(k - m, m, q - 1, r);
  }

  /** Copy `j` of a tiled buffer is the buffer itself. */
  lemma {:induction false} TileBlock(d: seq<real>, n: nat, j: nat)
    requires j < n
    ensures j * |d| + |d| <= n * |d| && Tile(d, n)[j * |d| .. j * |d| + |d|] == d
  {
    RowInBounds(j, n, |d|);
    if j > 0 {
      var p, rest := |d|, Tile(d, n - 1);
      TileBlock(d, n - 1, j - 1);
      Distrib(j - 1, 1, p);
      var lo := (j - 1) * p;
      assert j * p == lo + p;
      assert Tile(d, n) == d + rest;
      assert (d + rest)[lo + p .. lo + p + p] == rest[lo .. lo + p];
    }
  }

  /** `t.repeat(n, 1, ..., 1)`: `n` copies stacked along the leading axis. */
  function RepeatLeading(t: Tensor, n: nat): (r: Tensor)
    requires |t.shape| > 0
    ensures r.shape == [n * t.shape[0]] + t.shape[1..]
    ensures |r.data| == n * |t.data|
  {
    var sh := [n * t.shape[0]] + t.shape[1..];
    assert sh[1..] == t.shape[1..];
    MulAssoc(n, t.shape[0], Numel(t.shape[1..]));
    TensorData(sh, Tile(t.data, n))
  }

  /** Row `k` of the repeated tensor is row `k mod B` of the original. */
  lemma RepeatLeadingSub(t: Tensor, n: nat, k: nat)
    requires |t.shape| > 0 && k < n * t.shape[0]
    ensures k % t.shape[0] < t.shape[0]
    ensures Sub(RepeatLeading(t, n), k) == Sub(t, k % t.shape[0])
  {
    var B, p := t.shape[0], Numel(t.shape[1..]);
    var r := RepeatLeading(t, n);
    assert r.shape[1..] == t.shape[1..];
    assert |t.data| == B * p;
    var lo, lo' := k * p, (k % B) * p;
    assert lo + p <= n * |t.data| by { RowInBounds(k, n * B, p); MulAssoc(n, B, p); }
    assert lo' + p <= |t.data| by { RowInBounds(k % B, B, p); }
    if p > 0 {
      assert lo % (B * p) == lo' by { BlockMod(k, B, p, 0); }
      TileSlice(t.data, n, lo, p);
    }
  }

  /** A window of `n` stacked copies of `d` that lies inside one copy is the same
      window of `d`, at the offset taken modulo `|d|`. */
  lemma {:induction false} TileSlice(d: seq<real>, n: nat, lo: nat, len: nat)
    requires |d| > 0 && lo + len <= n * |d| && lo % |d| + len <= |d|
    ensures Tile(d, n)[lo .. lo + len] == d[lo % |d| .. lo % |d| + len]
    decreases n, 1
  {
    var w := |d|;
    if n == 0 {
      assert len == 0;
    } else {
      TileSliceStep(d, n, lo, len);
    }
  }

  lemma {:induction false} TileSliceStep(d: seq<real>, n: nat, lo: nat, len: nat)
    requires |d| > 0 && n > 0 && lo + len <= n * |d| && lo % |d| + len <= |d|
    ensures Tile(d, n)[lo .. lo + len] == d[lo % |d| .. lo % |d| + len]
    decreases n, 0
  {
    var w := |d|;
    var rest := Tile(d, n - 1);
    assert Tile(d, n) == d + rest;
    if lo < w {
      assert lo % w == lo by { UniqueMod(lo, w, 0, lo); }
      SlicePrefix(d, rest, lo, lo + len);
    } else {
      assert lo - w + len <= (n - 1) * w by { Distrib(n - 1, 1, w); }
      assert (lo - w) % w == lo % w by { ModShift(lo, w); }
      TileSlice(d, n - 1, lo - w, len);
      SliceSuffix(d, rest, lo, lo + len);
    }
  }

  lemma SlicePrefix(a: seq<real>, b: seq<real>, i: nat, j: nat)
    requires i <= j <= |a|
    ensures (a + b)[i .. j] == a[i .. j]
  {
  }

  lemma SliceSuffix(a: seq<real>, b: seq<real>, i: nat, j: nat)
    requires |a| <= i <= j <= |a| + |b|
    ensures (a + b)[i .. j] == b[i - |a| .. j - |a|]
  {
  }

  /** `(k * p + j) mod (B * p) == (k mod B) * p + j` for `j < p`. */
  lemma BlockMod(k: nat, B: nat, p: nat, j: nat)
    requires B > 0 && j < p
    ensures (k * p + j) % (B * p) == (k % B) * p + j
  {
    var q, r := k / B, k % B;
    assert k == q * B + r;
    assert k * p + j == q * (B * p) + (r * p + j) by {
      MulAssoc(q, B, p);
      assert k * p == (q * B) * p + r * p;
    }
    RowInBounds(r, B, p);
    UniqueMod(k * p + j, B * p, q, r * p + j);
  }

  lemma UniqueMod(x: nat, m: nat, q: nat, r: nat)
    requires m > 0 && r < m && x == q * m + r
    ensures x % m == r
  {
    var q', r' := x / m, x % m;
    assert x == q' * m + r';
    if q' > q {
      MulLeft(q + 1, q', m);
      Distrib(q, 1, m);
      assert false;
    } else if q' < q {
      MulLeft(q' + 1, q, m);
      Distrib(q', 1, m);
      assert false;
    }
    assert q' == q;
  }

  /** Elementwise `-t`. */
  function Negate(t: Tensor): (r: Tensor)
    ensures r.shape == t.shape && |r.data| == |t.data|
    ensures forall k :: 0 <= k < |t.data| ==> r.data[k] == -t.data[k]
  {
    TensorData(t.shape, seq(|t.data|, k requires 0 <= k < |t.data| => -t.data[k]))
  }
}
