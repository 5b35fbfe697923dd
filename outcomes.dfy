/** Failure-carrying results shared by every module of the model. */
module Outcomes {

  /** A value that may be absent; `None` stands for a shape that cannot be formed. */
  datatype Option<+T> = None | Some(value: T)

  /** The outcome of an operation that the source aborts with an exception. */
  datatype Result<+T, +E> = Ok(value: T) | Err(error: E)
}

/** Sequence helpers used by the tensor and SBC models. */
module Seqs {

  /** Concatenation of a list of sequences, in order (`torch.cat` along the leading axis). */
  function Concat<T>(xs: seq<seq<T>>): (r: seq<T>)
    ensures |xs| == 0 ==> r == []
  {
    if |xs| == 0 then [] else xs[0] + Concat(xs[1..])
  }

  lemma {:induction false} ConcatAppend<T>(xs: seq<seq<T>>, ys: seq<seq<T>>)
    ensures Concat(xs + ys) == Concat(xs) + Concat(ys)
  {
    if |xs| == 0 {
      assert xs + ys == ys;
    } else {
      assert (xs + ys)[1..] == xs[1..] + ys;
      ConcatAppend(xs[1..], ys);
    }
  }

  lemma ConcatSingle<T>(x: seq<T>)
    ensures Concat([x]) == x
  {
    assert [x][1..] == [];
  }

  /** Every piece of the same length `w` gives `|xs| * w` elements. */
  lemma {:induction false} ConcatUniformLength<T>(xs: seq<seq<T>>, w: nat)
    requires forall i :: 0 <= i < |xs| ==> |xs[i]| == w
    ensures |Concat(xs)| == |xs| * w
  {
    if |xs| > 0 {
      ConcatUniformLength(xs[1..], w);
      assert |Concat(xs)| == w + (|xs| - 1) * w;
    }
  }

  /** Sum of a sequence of reals. */
  function Sum(s: seq<real>): real
  {
    if |s| == 0 then 0.0 else s[0] + Sum(s[1..])
  }

  lemma {:induction false} SumConstant(s: seq<real>, v: real)
    requires forall i :: 0 <= i < |s| ==> s[i] == v
    ensures Sum(s) == |s| as real * v
  {
    if |s| > 0 {
      SumConstant(s[1..], v);
    }
  }

  lemma {:induction false} SumNegate(s: seq<real>)
    ensures Sum(seq(|s|, i requires 0 <= i < |s| => -s[i])) == -Sum(s)
  {
    var n := seq(|s|, i requires 0 <= i < |s| => -s[i]);
    if |s| > 0 {
      assert n[1..] == seq(|s[1..]|, i requires 0 <= i < |s[1..]| => -s[1..][i]);
      SumNegate(s[1..]);
    }
  }

  /** Terms between two bounds give a sum between `|s|` times each. */
  lemma {:induction false} SumBounds(s: seq<real>, lo: real, hi: real)
    requires forall i :: 0 <= i < |s| ==> lo <= s[i] <= hi
    ensures |s| as real * lo <= Sum(s) <= |s| as real * hi
  {
    if |s| > 0 {
      SumBounds(s[1..], lo, hi);
      var n := |s[1..]| as real;
      assert |s| as real * lo == lo + n * lo;
      assert |s| as real * hi == hi + n * hi;
    }
  }
}
