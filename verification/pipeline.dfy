/**
 The three splits as they are served to training and evaluation.

 Train and validation are rebalanced by oversampling, test is passed through
 as loaded. Each split is wrapped in a dataset object whose length is the
 split's length and whose item at an index carries the sentence and the label
 after normalisation; the normalisation therefore runs on every item as it is
 retrieved, after the rebalancing. Tokenisation and batching are not modelled:
 an item carries the text that would be handed to the tokenizer.
 */
module Pipeline {
  import opened Labels
  import opened Oversampling

  /** VietnameseSentimentAnalysis: one split, served item by item. */
  datatype SentimentDataset = SentimentDataset(rows: seq<Example>)

  /** What one retrieval yields: the text to tokenize and the normalised label. */
  datatype Item = Item(text: string, labels: int)

  /** The three named splits of the corpus. */
  datatype Splits = Splits(train: seq<Example>, validation: seq<Example>, test: seq<Example>)

  /** The three datasets behind the train, validation and test loaders. */
  datatype Loaders = Loaders(train: SentimentDataset, validation: SentimentDataset, test: SentimentDataset)

  /** __len__: the length of the underlying split, one item per row; on the
      three-class corpus, the three class counts together. */
  function Len(d: SentimentDataset): (n: nat)
    ensures n == |LabelsOf(d.rows)|
    ensures AllLabels(LabelsOf(d.rows))
            ==> n == ClassCount(d.rows, 0) + ClassCount(d.rows, 1) + ClassCount(d.rows, 2)
  {
    var ls := LabelsOf(d.rows);
    if AllLabels(ls) then SizeIsSumOfCounts(ls); |d.rows| else |d.rows|
  }

  /** __getitem__ without a word segmenter: the sentence as it is, and the raw
      label put through the label swap as a one-element tensor. The label is
      2 exactly when the raw label is 1 (or the out-of-domain 3), 1 exactly
      when it is 2, and 0 exactly when it is 0. */
  function GetItem(d: SentimentDataset, idx: nat): (it: Item)
    requires idx < Len(d)
    ensures it.text == d.rows[idx].sentence
    ensures it.labels == 2 <==> d.rows[idx].sentiment == 1 || d.rows[idx].sentiment == 3
    ensures it.labels == 1 <==> d.rows[idx].sentiment == 2
    ensures it.labels == 0 <==> d.rows[idx].sentiment == 0
    ensures ValidLabel(d.rows[idx].sentiment) ==> ValidLabel(it.labels)
  {
    var raw := d.rows[idx];
    var swapped := SwapTensorValues([raw.sentiment]);
    assert [raw.sentiment][0] == raw.sentiment;
    Item(raw.sentence, swapped[0])
  }

  /** The labels of every index of the dataset, in index order. */
  function ServedLabels(d: SentimentDataset): (r: seq<int>)
    ensures |r| == Len(d)
  {
    seq(Len(d), i requires 0 <= i < Len(d) => GetItem(d, i).labels)
  }

  /** create_dataloaders with the oversampler's draws fixed as in
      `ApplyOversampling`: train and validation are rebalanced, test is not. */
  function CreateDataloaders(raw: Splits): (l: Loaders)
    ensures IsOversampling(raw.train, l.train.rows)
    ensures IsOversampling(raw.validation, l.validation.rows)
    ensures l.test.rows == raw.test
  {
    Loaders(
      SentimentDataset(ApplyOversampling(raw.train)),
      SentimentDataset(ApplyOversampling(raw.validation)),
      SentimentDataset(raw.test))
  }

  /** On a split whose labels are in {0,1,2}, the served labels are the
      label column with 1 and 2 swapped. */
  lemma ServedLabelsAreSwapped(d: SentimentDataset)
    requires AllLabels(LabelsOf(d.rows))
    ensures ServedLabels(d) == SwapAll(LabelsOf(d.rows))
    ensures ServedLabels(d) == SwapTensorValues(LabelsOf(d.rows))
  {
  }

  /** Because the swap runs after the split is built, the served count of each
      class is the split's count of the swapped class. */
  lemma ServedCounts(d: SentimentDataset)
    requires AllLabels(LabelsOf(d.rows))
    ensures Count(ServedLabels(d), 0) == ClassCount(d.rows, 0)
    ensures Count(ServedLabels(d), 1) == ClassCount(d.rows, 2)
    ensures Count(ServedLabels(d), 2) == ClassCount(d.rows, 1)
  {
    ServedLabelsAreSwapped(d);
    SwapAllCount(LabelsOf(d.rows), 0);
    SwapAllCount(LabelsOf(d.rows), 1);
    SwapAllCount(LabelsOf(d.rows), 2);
  }

  /** For any draw of the oversampler on a split with labels in {0,1,2}, each
      served class has the pre-resampling majority count when the class it is
      swapped from occurs in the split, and no examples otherwise. */
  lemma ServedCountsAfterOversampling(ds: seq<Example>, r: seq<Example>, c: int)
    requires AllLabels(LabelsOf(ds))
    requires IsOversampling(ds, r)
    requires ValidLabel(c)
    ensures Count(ServedLabels(SentimentDataset(r)), c)
         == if SwapLabel(c) in LabelsOf(ds) then MajorityCount(ds) else 0
  {
    OversamplingBalances(ds, r);
    var d := SentimentDataset(r);
    forall i | 0 <= i < |r|
      ensures ValidLabel(LabelsOf(r)[i])
    {
      assert LabelsOf(r)[i] in LabelsOf(ds);
    }
    ServedCounts(d);
    var k := SwapLabel(c);
    if k !in LabelsOf(ds) {
      assert k !in LabelsOf(r);
      assert multiset(LabelsOf(r))[k] == 0;
    }
  }

  /** The test split reaches the test loader unresampled: same length, same
      examples, and its served counts are its raw counts with 1 and 2 swapped. */
  lemma TestSplitUntouched(raw: Splits)
    requires AllLabels(LabelsOf(raw.test))
    ensures var t := CreateDataloaders(raw).test;
      && Len(t) == |raw.test|
      && (forall i :: 0 <= i < |raw.test| ==> GetItem(t, i).text == raw.test[i].sentence)
      && Count(ServedLabels(t), 0) == ClassCount(raw.test, 0)
      && Count(ServedLabels(t), 1) == ClassCount(raw.test, 2)
      && Count(ServedLabels(t), 2) == ClassCount(raw.test, 1)
  {
    ServedCounts(CreateDataloaders(raw).test);
  }

  /** The train and validation loaders serve balanced splits: every class that
      occurs in the raw split is served as often as the raw majority class. */
  lemma TrainAndValidationServedBalanced(raw: Splits, c: int)
    requires AllLabels(LabelsOf(raw.train)) && AllLabels(LabelsOf(raw.validation))
    requires ValidLabel(c)
    ensures var l := CreateDataloaders(raw);
      && Count(ServedLabels(l.train), c)
         == (if SwapLabel(c) in LabelsOf(raw.train) then MajorityCount(raw.train) else 0)
      && Count(ServedLabels(l.validation), c)
         == (if SwapLabel(c) in LabelsOf(raw.validation) then MajorityCount(raw.validation) else 0)
  {
    var l := CreateDataloaders(raw);
    ServedCountsAfterOversampling(raw.train, l.train.rows, c);
    ServedCountsAfterOversampling(raw.validation, l.validation.rows, c);
  }

  /** The three-class scenario: with every class present in a training split,
      each class is served exactly as often as the largest raw class, and an
      original label-1 example is served with label 2, a label-2 example with
      label 1, and a label-0 example with label 0. */
  lemma ThreeClassTrainScenario(raw: Splits)
    requires AllLabels(LabelsOf(raw.train))
    requires 0 in LabelsOf(raw.train) && 1 in LabelsOf(raw.train) && 2 in LabelsOf(raw.train)
    ensures var t := CreateDataloaders(raw).train;
      var m := MajorityCount(raw.train);
      && ClassCount(raw.train, 0) <= m && ClassCount(raw.train, 1) <= m && ClassCount(raw.train, 2) <= m
      && (m == ClassCount(raw.train, 0) || m == ClassCount(raw.train, 1) || m == ClassCount(raw.train, 2))
      && Count(ServedLabels(t), 0) == m
      && Count(ServedLabels(t), 1) == m
      && Count(ServedLabels(t), 2) == m
      && Len(t) == 3 * m
      && (forall i :: 0 <= i < |raw.train| ==> GetItem(t, i).labels == SwapLabel(raw.train[i].sentiment))
  {
    var t := CreateDataloaders(raw).train;
    ThreeClassOversampling(raw.train, t.rows);
    ServedCountsAfterOversampling(raw.train, t.rows, 0);
    ServedCountsAfterOversampling(raw.train, t.rows, 1);
    ServedCountsAfterOversampling(raw.train, t.rows, 2);
    forall i | 0 <= i < |raw.train|
      ensures GetItem(t, i).labels == SwapLabel(raw.train[i].sentiment)
    {
      assert t.rows[..|raw.train|] == raw.train;
      assert t.rows[i] == raw.train[i];
      assert ValidLabel(LabelsOf(raw.train)[i]);
    }
  }

  /** Raw training counts {0: 100, 1: 20, 2: 30}: after rebalancing every class
      has 100 examples, 300 in all, and the served counts are 100 each. */
  lemma EndToEndScenario(raw: Splits)
    requires AllLabels(LabelsOf(raw.train))
    requires ClassCount(raw.train, 0) == 100
    requires ClassCount(raw.train, 1) == 20
    requires ClassCount(raw.train, 2) == 30
    ensures var t := CreateDataloaders(raw).train;
      && ClassCount(t.rows, 0) == 100 && ClassCount(t.rows, 1) == 100 && ClassCount(t.rows, 2) == 100
      && Len(t) == 300
      && Count(ServedLabels(t), 0) == 100
      && Count(ServedLabels(t), 1) == 100
      && Count(ServedLabels(t), 2) == 100
  {
    var ls := LabelsOf(raw.train);
    assert multiset(ls)[0] > 0 && multiset(ls)[1] > 0 && multiset(ls)[2] > 0;
    assert 0 in ls && 1 in ls && 2 in ls;
    ThreeClassTrainScenario(raw);
    ThreeClassOversampling(raw.train, CreateDataloaders(raw).train.rows);
  }
}
