/**
 Class rebalancing of one split by random oversampling.

 The source hands the (sentence, sentiment) pairs of a split to a random
 oversampler with its default strategy: every class that is not the majority
 is topped up, by drawing existing examples of that class with replacement,
 until it has as many examples as the majority class. Which examples are drawn
 is random, so the model states the oversampler's contract as a predicate
 (`IsOversampling`) and gives one deterministic implementation that meets it
 (`ApplyOversampling`, which always repeats the first example of each class).
 */
module Oversampling {
  import opened Labels

  /** One row of a split: a sentence and its raw sentiment label. */
  datatype Example = Example(sentence: string, sentiment: int)

  /** The label column of a split. */
  function LabelsOf(ds: seq<Example>): (r: seq<int>)
    ensures |r| == |ds|
    ensures forall i :: 0 <= i < |ds| ==> r[i] == ds[i].sentiment
  {
    seq(|ds|, i requires 0 <= i < |ds| => ds[i].sentiment)
  }

  /** Number of examples of class `c` in a split. */
  function ClassCount(ds: seq<Example>, c: int): nat {
    Count(LabelsOf(ds), c)
  }

  /** The largest count in `xs` of any class listed in `classes`
      (0 when `classes` is empty). */
  function MaxCountAmong(xs: seq<int>, classes: seq<int>): (m: nat)
    ensures forall c :: c in classes ==> Count(xs, c) <= m
    ensures |classes| == 0 ==> m == 0
    ensures |classes| > 0 ==> exists c :: c in classes && Count(xs, c) == m
  {
    if |classes| == 0 then 0
    else
      var rest := MaxCountAmong(xs, classes[1..]);
      var here := Count(xs, classes[0]);
      assert forall c :: c in classes ==> c == classes[0] || c in classes[1..];
      if here >= rest then here else rest
  }

  /** Size of the majority class of a split (0 for an empty split). */
  function MajorityCount(ds: seq<Example>): nat {
    MaxCountAmong(LabelsOf(ds), LabelsOf(ds))
  }

  /** Every class present has the same number of examples, that of the majority class. */
  predicate IsBalanced(ds: seq<Example>) {
    forall c :: c in LabelsOf(ds) ==> ClassCount(ds, c) == MajorityCount(ds)
  }

  /** The contract of the default random oversampler, whatever it draws:
      every original pair is kept (with its multiplicity), every output pair is
      an input pair, so no sentence is paired with another label, and every
      class present reaches the pre-resampling majority count. */
  predicate IsOversampling(ds: seq<Example>, r: seq<Example>)
    ensures IsOversampling(ds, r) ==> |ds| <= |r|
    ensures IsOversampling(ds, r) && |ds| == 0 ==> r == []
  {
    var kept := multiset(ds) <= multiset(r);
    var paired := forall e :: e in r ==> e in ds;
    var balanced := forall c :: c in LabelsOf(ds) ==> ClassCount(r, c) == MajorityCount(ds);
    assert kept ==> |ds| <= |r| by {
      if kept {
        assert multiset(r) == multiset(ds) + (multiset(r) - multiset(ds));
      }
    }
    assert paired && |ds| == 0 ==> r == [] by {
      if paired && |r| > 0 {
        assert r[0] in r;
      }
    }
    kept && paired && balanced
  }

  /** `n` copies of one example. */
  function Repeat(e: Example, n: nat): (r: seq<Example>)
    ensures |r| == n
    ensures forall x :: x in r ==> x == e
  {
    seq(n, _ => e)
  }

  /** How many copies class `c` needs to reach `target`. */
  function Deficit(ds: seq<Example>, c: int, target: nat): nat {
    if ClassCount(ds, c) <= target then target - ClassCount(ds, c) else 0
  }

  /** The draws for the first `k` examples of `ds`: at the first example of each
      class, enough copies of that example for its class to reach `target`. */
  function Padding(ds: seq<Example>, k: nat, target: nat): (r: seq<Example>)
    requires k <= |ds|
    ensures forall e :: e in r ==> e in ds[..k]
  {
    if k == 0 then []
    else
      var e := ds[k - 1];
      var copies := if e.sentiment in LabelsOf(ds[..k - 1]) then 0 else Deficit(ds, e.sentiment, target);
      var earlier := Padding(ds, k - 1, target);
      assert forall x :: x in earlier ==> x in ds[..k] by {
        assert forall x :: x in ds[..k - 1] ==> x in ds[..k];
      }
      earlier + Repeat(e, copies)
  }

  /** apply_random_oversampling with the random draws fixed: the split itself,
      followed by copies of the first example of each minority class. */
  function ApplyOversampling(ds: seq<Example>): (r: seq<Example>)
    ensures IsOversampling(ds, r)
    ensures |ds| <= |r| && r[..|ds|] == ds
  {
    var target := MajorityCount(ds);
    var pad := Padding(ds, |ds|, target);
    assert ds[..|ds|] == ds;
    forall c | c in LabelsOf(ds)
      ensures ClassCount(ds + pad, c) == target
    {
      ClassCountConcat(ds, pad, c);
      PaddingCount(ds, |ds|, target, c);
    }
    ds + pad
  }

  lemma LabelsOfConcat(a: seq<Example>, b: seq<Example>)
    ensures LabelsOf(a + b) == LabelsOf(a) + LabelsOf(b)
  {
  }

  lemma ClassCountConcat(a: seq<Example>, b: seq<Example>, c: int)
    ensures ClassCount(a + b, c) == ClassCount(a, c) + ClassCount(b, c)
  {
    LabelsOfConcat(a, b);
  }

  lemma {:induction false} ClassCountRepeat(e: Example, n: nat, c: int)
    ensures ClassCount(Repeat(e, n), c) == if c == e.sentiment then n else 0
  {
    if n > 0 {
      assert Repeat(e, n) == Repeat(e, n - 1) + [e];
      ClassCountConcat(Repeat(e, n - 1), [e], c);
      ClassCountRepeat(e, n - 1, c);
      assert LabelsOf([e]) == [e.sentiment];
    } else {
      assert LabelsOf(Repeat(e, n)) == [];
    }
  }

  /** The draws for the first `k` examples give class `c` exactly its deficit
      when `c` occurs among those examples, and nothing otherwise. */
  lemma {:induction false} PaddingCount(ds: seq<Example>, k: nat, target: nat, c: int)
    requires k <= |ds|
    ensures ClassCount(Padding(ds, k, target), c)
         == if c in LabelsOf(ds[..k]) then Deficit(ds, c, target) else 0
  {
    if k == 0 {
      assert LabelsOf(Padding(ds, k, target)) == [];
      assert LabelsOf(ds[..k]) == [];
    } else {
      var e := ds[k - 1];
      var first := e.sentiment !in LabelsOf(ds[..k - 1]);
      var copies := if first then Deficit(ds, e.sentiment, target) else 0;
      var earlier := Padding(ds, k - 1, target);
      assert Padding(ds, k, target) == earlier + Repeat(e, copies);
      ClassCountConcat(earlier, Repeat(e, copies), c);
      ClassCountRepeat(e, copies, c);
      PaddingCount(ds, k - 1, target, c);
      assert ds[..k] == ds[..k - 1] + [e];
      LabelsOfConcat(ds[..k - 1], [e]);
      assert LabelsOf(ds[..k]) == LabelsOf(ds[..k - 1]) + [e.sentiment];
    }
  }

  /** Any output meeting the oversampler's contract has exactly the input's
      classes, is itself balanced, and keeps the input's majority count. */
  lemma OversamplingBalances(ds: seq<Example>, r: seq<Example>)
    requires IsOversampling(ds, r)
    ensures forall c :: c in LabelsOf(r) <==> c in LabelsOf(ds)
    ensures MajorityCount(r) == MajorityCount(ds)
    ensures IsBalanced(r)
  {
    forall c | c in LabelsOf(r)
      ensures c in LabelsOf(ds)
    {
      var i :| 0 <= i < |r| && LabelsOf(r)[i] == c;
      assert r[i] in ds;
      var j :| 0 <= j < |ds| && ds[j] == r[i];
      assert LabelsOf(ds)[j] == c;
    }
    forall c | c in LabelsOf(ds)
      ensures c in LabelsOf(r)
    {
      var j :| 0 <= j < |ds| && LabelsOf(ds)[j] == c;
      assert multiset(ds)[ds[j]] > 0;
      assert ds[j] in r;
      var i :| 0 <= i < |r| && r[i] == ds[j];
      assert LabelsOf(r)[i] == c;
    }
    var m := MajorityCount(r);
    if |r| == 0 {
      assert |multiset(ds)| <= |multiset(r)|;
      assert |ds| == 0;
    } else {
      assert r[0].sentiment in LabelsOf(r);
      var c :| c in LabelsOf(r) && Count(LabelsOf(r), c) == m;
      assert c in LabelsOf(ds);
    }
  }

  /** When every class needs no copies, the draws are empty. */
  lemma {:induction false} PaddingEmpty(ds: seq<Example>, k: nat, target: nat)
    requires k <= |ds|
    requires forall c :: c in LabelsOf(ds) ==> Deficit(ds, c, target) == 0
    ensures Padding(ds, k, target) == []
  {
    if k > 0 {
      PaddingEmpty(ds, k - 1, target);
      assert LabelsOf(ds)[k - 1] == ds[k - 1].sentiment;
    }
  }

  /** A split that is already balanced is left exactly as it is. */
  lemma BalancedIsFixedPoint(ds: seq<Example>)
    requires IsBalanced(ds)
    ensures ApplyOversampling(ds) == ds
  {
    PaddingEmpty(ds, |ds|, MajorityCount(ds));
  }

  /** Oversampling twice adds nothing to oversampling once. */
  lemma OversamplingIdempotent(ds: seq<Example>)
    ensures ApplyOversampling(ApplyOversampling(ds)) == ApplyOversampling(ds)
  {
    OversamplingBalances(ds, ApplyOversampling(ds));
    BalancedIsFixedPoint(ApplyOversampling(ds));
  }

  /** On the three-class corpus with every class present, the majority count is
      the largest of the three class counts, and any contract-meeting output has
      three times that many examples. */
  lemma ThreeClassOversampling(ds: seq<Example>, r: seq<Example>)
    requires AllLabels(LabelsOf(ds))
    requires 0 in LabelsOf(ds) && 1 in LabelsOf(ds) && 2 in LabelsOf(ds)
    requires IsOversampling(ds, r)
    ensures var m := MajorityCount(ds);
      && ClassCount(ds, 0) <= m && ClassCount(ds, 1) <= m && ClassCount(ds, 2) <= m
      && (m == ClassCount(ds, 0) || m == ClassCount(ds, 1) || m == ClassCount(ds, 2))
      && ClassCount(r, 0) == m && ClassCount(r, 1) == m && ClassCount(r, 2) == m
      && |r| == 3 * m
  {
    var m := MajorityCount(ds);
    var c :| c in LabelsOf(ds) && Count(LabelsOf(ds), c) == m;
    var j :| 0 <= j < |ds| && LabelsOf(ds)[j] == c;
    assert ValidLabel(LabelsOf(ds)[j]);
    OversamplingBalances(ds, r);
    forall i | 0 <= i < |r|
      ensures ValidLabel(LabelsOf(r)[i])
    {
      assert LabelsOf(r)[i] in LabelsOf(r);
    }
    SizeIsSumOfCounts(LabelsOf(r));
  }
}
