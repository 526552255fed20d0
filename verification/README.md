# Vietnamese sentiment distillation — data preparation, modelled in Dafny

This project models the data layer that feeds teacher fine-tuning and student
distillation for 3-class Vietnamese sentiment classification (`dataset.py`).
It covers three things:

- **Label normalisation.** `swap_tensor_values` swaps raw labels 1 and 2 and
  leaves 0 alone. It does this with three masked assignments on a clone,
  using 3 as a temporary value. See `labels.dfy`, module `Labels`.
- **Class rebalancing.** `apply_random_oversampling` tops every minority class
  of a split up to the majority count with the default random oversampler.
  It is modelled in `oversampling.dfy`, module `Oversampling`, in two parts.
  `IsOversampling` is the oversampler's contract, whatever it draws.
  `ApplyOversampling` is one deterministic draw that meets the contract: it
  appends copies of the first example of each minority class.
- **Split pipeline.** `create_dataloaders` rebalances train and validation
  and passes test through as loaded. `VietnameseSentimentAnalysis.__getitem__`
  swaps each label when the item is retrieved, so the swap runs after
  rebalancing. See `pipeline.dfy`, module `Pipeline`.

The pipeline lemmas about served class counts (`ServedCountsAfterOversampling`)
hold for every output that meets `IsOversampling`. The randomness of the draws
is therefore left abstract. `CreateDataloaders` uses the deterministic draw.

Two facts about the code shape the model:

- `swap_tensor_values` never checks its input. Its docstring (dataset.py:38)
  documents values in {0,1,2}, but any tensor is accepted, and a 3 comes out
  as 2 (`Labels.TemporaryValueCollision`). So `SwapTensorValues` has no
  precondition. The documented domain {0,1,2} is instead the precondition of
  the lemmas that state the intended swap and the involution.
- The swap runs per item, in `__getitem__` (dataset.py:29), on a one-element
  tensor, after the split has been resampled. The model does the same:
  `GetItem` swaps the label of the row it returns.

## Model

| member | source | states |
|---|---|---|
| `Labels.ReplaceWhere` | dataset.py:47-49 | one masked assignment `t[t == from] = to`: same length, every `from` becomes `to`, every other element keeps its value |
| `Labels.SwapTensorValues` | dataset.py:32-51 | the three passes keep the length; on labels in {0,1,2} they equal the reference pointwise swap (0→0, 1→2, 2→1) and stay in {0,1,2}; on any input, non-3 values get the intended swap and 3 becomes 2 |
| `Labels.SwapInvolution` | dataset.py:38-49 | for labels in {0,1,2}, swapping twice gives back the original sequence |
| `Labels.TemporaryValueCollision` | dataset.py:47-49 | the temporary value matters: `[3]` becomes `[2]`, `[1,3]` and `[1,1]` both become `[2,2]`, and swapping `[3]` twice gives `[1]` rather than `[3]` |
| `Labels.SwapAllCount` | dataset.py:33-36 | after the swap, the count of class `c` equals the count of class `SwapLabel(c)` before it |
| `Labels.SizeIsSumOfCounts` | dataset.py:38 | a label sequence over {0,1,2} is as long as its three class counts together |
| `Labels.MaskedAssign` | dataset.py:47-49 | in-place masked assignment on a tensor leaves it equal to `ReplaceWhere` of its previous contents |
| `Labels.SwapTensorValuesOnClone` | dataset.py:43-51 | the passes run on a newly allocated clone, and the input tensor is unchanged; the clone has the input's length and ends as `SwapTensorValues` of the input; on labels in {0,1,2} it is the pointwise swap |
| `Oversampling.IsOversampling` | dataset.py:58-59 | the oversampler's contract, whatever it draws: originals kept as a multiset, every output pair an input pair, every present class at the pre-resampling majority count; it implies the output is at least as long as the input, and empty for an empty input |
| `Oversampling.MaxCountAmong` | dataset.py:58-59 | the majority count is at least every listed class's count and is reached by one of them (0 when there are none) |
| `Oversampling.Padding` | dataset.py:58-59 | every drawn example is an existing example of the split |
| `Oversampling.PaddingCount` | dataset.py:58-59 | the draws give each class present exactly its deficit to the target count, and give absent classes nothing |
| `Oversampling.ApplyOversampling` | dataset.py:53-62 | the result meets the oversampler contract: the originals are kept as a multiset (and come first), every output pair is an input pair, and every class present has the pre-resampling majority count |
| `Oversampling.OversamplingBalances` | dataset.py:58-61 | any contract-meeting output has exactly the input's classes, is balanced, and keeps the majority count |
| `Oversampling.BalancedIsFixedPoint` | dataset.py:58-59 | a split that is already balanced is left unchanged |
| `Oversampling.OversamplingIdempotent` | dataset.py:53-62 | oversampling twice equals oversampling once |
| `Oversampling.ThreeClassOversampling` | dataset.py:58-59 | with all three classes present, the majority count is the largest class count, every class of the output has it, and the output has three times that many examples |
| `Pipeline.Len` | dataset.py:16-17 | `__len__` is the number of rows of the split; on labels in {0,1,2} it is the sum of the three class counts |
| `Pipeline.GetItem` | dataset.py:19-30 | an item keeps the row's sentence; its label is 2 exactly when the raw label is 1 (or 3), 1 exactly when it is 2, 0 exactly when it is 0, and stays in {0,1,2} when the raw label does |
| `Pipeline.ServedLabelsAreSwapped` | dataset.py:16-29 | the labels served for indices `0 .. __len__-1` are the split's label column with 1 and 2 swapped |
| `Pipeline.ServedCounts` | dataset.py:26-29 | served count of 0 equals the raw count of 0; served 1 equals raw 2; served 2 equals raw 1 |
| `Pipeline.CreateDataloaders` | dataset.py:64-80 | train and validation rows meet the oversampler contract; test rows are the raw test split |
| `Pipeline.ServedCountsAfterOversampling` | dataset.py:68-80 | for any draw meeting the contract, each served class has the raw majority count if the class it swaps from occurs in the raw split, and 0 otherwise |
| `Pipeline.TestSplitUntouched` | dataset.py:74-80 | the test dataset's length equals the raw test length and its items keep their sentences; its served counts are the raw counts with 1 and 2 swapped |
| `Pipeline.TrainAndValidationServedBalanced` | dataset.py:66-79 | the train and validation datasets serve every class present in the raw split as often as the raw majority class |
| `Pipeline.ThreeClassTrainScenario` | dataset.py:64-80 | with all three classes in the raw train split, each class is served as often as the largest raw class, the dataset has three times that length, and each original example is served with its label swapped |
| `Pipeline.EndToEndScenario` | dataset.py:64-80 | raw train counts {0:100, 1:20, 2:30} become 100 of each class, 300 items, and 100 served items of each label |

## Left out

- Tokenisation, truncation and padding to 256 tokens (dataset.py:27-28), and `DataCollatorWithPadding` (dataset.py:14). These are foreign library calls. An item carries the text that would be tokenized.
- The optional word segmenter (dataset.py:21-25). It is a foreign call. Both entry scripts pass `rdrsegmenter=None`, so only the branch without a segmenter is modelled.
- `load_dataset` (dataset.py:66). It is a network download. The raw splits are a parameter of `CreateDataloaders`.
- The pandas and HF Dataset conversions (dataset.py:54-56, 61-62). They are modelled as the identity on the sequence of (sentence, sentiment) pairs.
- `DataLoader` batching and shuffling, and the printed lengths (dataset.py:82-109). These are library behaviour and I/O.
- Which examples the oversampler draws. This is random; only the contract is stated. `ApplyOversampling` is one deterministic draw.
- Oversampling.ApplyOversampling: the oversampler library itself rejects a split with fewer than two classes. That check is inside the library and not in the modelled code. The model returns such a split unchanged, which already meets the balance contract.
- The model uses a one-element sequence for the 0-dimensional label tensor built at dataset.py:29.
- The training and fine-tuning scripts (student/training_script.py, teacher/finetune_script.py). They are argument parsing, model and optimizer construction, and seeding. The distillation loss, gradient clipping, plateau scheduler, early stopping and checkpoint selection they call live in student/training_function and teacher/finetune_function. Those files are not part of this model, and the loss arithmetic is floating point.
- model/roberta_model.py. It is a wrapper over pretrained-model loading and saving, with no logic of its own.
