/**
 Label normalisation of the sentiment corpus.

 The raw corpus orders its three classes differently from the convention the
 models are trained on, so classes 1 and 2 trade places and class 0 stays.
 The source does this on a tensor with three masked assignments that go
 through a temporary value 3; this module models those passes on `seq<int>`,
 relates them to the intended pointwise swap, and records why the temporary
 value only works when 3 never occurs in the input.
 */
module Labels {

  /** A label of the raw corpus: one of the three classes 0, 1, 2. */
  predicate ValidLabel(x: int) {
    0 <= x <= 2
  }

  predicate AllLabels(xs: seq<int>) {
    forall i :: 0 <= i < |xs| ==> ValidLabel(xs[i])
  }

  /** Number of occurrences of class `c` in `xs`. */
  function Count(xs: seq<int>, c: int): nat {
    multiset(xs)[c]
  }

  /** The intended relabelling of one value: 1 and 2 trade places, anything else stays. */
  function SwapLabel(x: int): int {
    if x == 1 then 2 else if x == 2 then 1 else x
  }

  /** Reference definition: the intended relabelling applied position by position. */
  function SwapAll(xs: seq<int>): (r: seq<int>)
    ensures |r| == |xs|
  {
    seq(|xs|, i requires 0 <= i < |xs| => SwapLabel(xs[i]))
  }

  /** One masked assignment `t[t == from] = to`: every element equal to `from`
      becomes `to`, every other element keeps its value. */
  function ReplaceWhere(t: seq<int>, from: int, to: int): (r: seq<int>)
    ensures |r| == |t|
    ensures forall i :: 0 <= i < |t| && t[i] == from ==> r[i] == to
    ensures forall i :: 0 <= i < |t| && t[i] != from ==> r[i] == t[i]
  {
    if |t| == 0 then []
    else [if t[0] == from then to else t[0]] + ReplaceWhere(t[1..], from, to)
  }

  /** swap_tensor_values: on a copy of the input, 1 becomes the temporary 3,
      then 2 becomes 1, then 3 becomes 2. The source does not check its input;
      the documented domain {0,1,2} is where the result is the intended swap. */
  function SwapTensorValues(t: seq<int>): (r: seq<int>)
    ensures |r| == |t|
    ensures AllLabels(t) ==> r == SwapAll(t)
    ensures AllLabels(t) ==> AllLabels(r)
    ensures forall i :: 0 <= i < |t| && t[i] != 3 ==> r[i] == SwapLabel(t[i])
    ensures forall i :: 0 <= i < |t| && t[i] == 3 ==> r[i] == 2
  {
    var marked := ReplaceWhere(t, 1, 3);
    var lowered := ReplaceWhere(marked, 2, 1);
    ReplaceWhere(lowered, 3, 2)
  }

  /** On labels in {0,1,2}, applying the relabelling twice gives back the input. */
  lemma SwapInvolution(t: seq<int>)
    requires AllLabels(t)
    ensures SwapTensorValues(SwapTensorValues(t)) == t
  {
  }

  /** The temporary value is only safe because 3 never occurs in the input:
      a 3 comes out as 2, two different inputs then collide, and applying the
      relabelling twice no longer gives the input back. */
  lemma TemporaryValueCollision()
    ensures SwapTensorValues([3]) == [2]
    ensures SwapTensorValues([1, 3]) == SwapTensorValues([1, 1]) == [2, 2]
    ensures SwapTensorValues(SwapTensorValues([3])) == [1]
  {
  }

  /** Relabelling permutes the class counts: the number of `c` labels after the
      swap is the number of `SwapLabel(c)` labels before it. */
  lemma {:induction false} SwapAllCount(xs: seq<int>, c: int)
    ensures Count(SwapAll(xs), c) == Count(xs, SwapLabel(c))
  {
    if |xs| == 0 {
      assert SwapAll(xs) == [];
    } else {
      assert xs == [xs[0]] + xs[1..];
      assert SwapAll(xs) == [SwapLabel(xs[0])] + SwapAll(xs[1..]);
      SwapAllCount(xs[1..], c);
      assert SwapLabel(xs[0]) == c <==> xs[0] == SwapLabel(c);
    }
  }

  /** A sequence of labels in {0,1,2} is as long as its three class counts together. */
  lemma {:induction false} SizeIsSumOfCounts(xs: seq<int>)
    requires AllLabels(xs)
    ensures |xs| == Count(xs, 0) + Count(xs, 1) + Count(xs, 2)
  {
    if |xs| > 0 {
      assert xs == [xs[0]] + xs[1..];
      assert ValidLabel(xs[0]);
      SizeIsSumOfCounts(xs[1..]);
    }
  }

  /** One masked assignment performed in place on a tensor. */
  method MaskedAssign(a: array<int>, from: int, to: int)
    modifies a
    ensures a[..] == ReplaceWhere(old(a[..]), from, to)
  {
    ghost var before := a[..];
    for i := 0 to a.Length
      invariant forall j :: 0 <= j < i ==> a[j] == (if before[j] == from then to else before[j])
      invariant forall j :: i <= j < a.Length ==> a[j] == before[j]
    {
      if a[i] == from {
        a[i] := to;
      }
    }
  }

  /** swap_tensor_values on a tensor: the passes run on a fresh clone, so the
      caller's tensor is left as it was. */
  method SwapTensorValuesOnClone(input: array<int>) returns (output: array<int>)
    ensures fresh(output)
    ensures unchanged(input)
    ensures output.Length == input.Length
    ensures output[..] == SwapTensorValues(input[..])
    ensures AllLabels(input[..]) ==> output[..] == SwapAll(input[..])
  {
    output := new int[input.Length];
    forall i | 0 <= i < input.Length {
      output[i] := input[i];
    }
    assert output[..] == input[..];
    MaskedAssign(output, 1, 3);
    MaskedAssign(output, 2, 1);
    MaskedAssign(output, 3, 2);
  }
}
