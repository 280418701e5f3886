# Siamese-network pair construction, modelled in Dafny

The script `MINST_Siamese.py` trains a Siamese convolutional network on
handwritten digits. Its own logic, apart from calls into the deep-learning
framework, is in three places, and this project models those three:

- **The digit index table** (`digit_indices.dfy`, module `DigitIndices`):
  for each class `i` in `range(num_classes)`, `np.where(y == i)[0]`, the
  ascending list of dataset positions whose label is `i`. The table
  partitions the positions whose label is a class.
- **Pair construction** (`siamese_pairs.dfy`, module `SiamesePairs`):
  `create_pairs(x, digit_indices)`. Let `n` be the size of the smallest class
  minus one. For each class `d` and each step `i < n`, it appends a positive
  pair (entries `i` and `i + 1` of class `d`) and a negative pair (entry `i`
  of class `d` and entry `i` of class `(d + inc) % num_classes`). It also
  appends the labels `1, 0`. `CreatePairs` is a method with the source's two
  nested loops, growing the two lists by appending. It is proved against a
  reference definition, `PositionsAt`, which gives the dataset positions of
  the `k`-th pair directly from `k`. The lemmas about `PositionsAt` give the
  source's promises:
  - the positive and negative pair of step `i` of class `d` sit at positions
    `2 * (d * n + i)` and `2 * (d * n + i) + 1`;
  - every index is in bounds;
  - with a table built from the labels, the two images of a pair show the same
    digit exactly when the pair's label is 1.
- **Accuracy** (`accuracy.dfy`, module `Accuracy`):
  `compute_accuracy(y_true, y_pred)`. It thresholds each distance at 0.5 and
  takes the mean of the agreements with the labels.

Parameters stand in for the script's inputs:
- The class count (the constant 10 of the script) is the parameter
  `numClasses`.
- Images are of an arbitrary element type `T`, since they are only looked up.
- The random offsets `random.randrange(1, num_classes)` are a caller-supplied
  sequence `incs`. Each offset lies in `[1, numClasses)`. One offset is
  consumed per step, in the order the generator draws them.
- Predicted distances are `real`s.

## Model

| member | source | states |
|---|---|---|
| `DigitIndices.ClassPositions` | MINST_Siamese.py:91-94 | The positions listed for a class are strictly ascending. Each is a valid position holding that class. Every position holding that class is listed. |
| `DigitIndices.IndexTable` | MINST_Siamese.py:91-94 | There is one list per class in `[0, numClasses)`. Each list is strictly ascending and holds only positions of its own class. Every position whose label is a class appears in that class's list. |
| `DigitIndices.TablePartitionsLabelledPositions` | MINST_Siamese.py:91-94 | The lists of the table are pairwise disjoint. Their union is exactly the set of positions whose label lies in `[0, numClasses)`. |
| `SiamesePairs.MinClassSize` | MINST_Siamese.py:42 | The result is the size of the smallest of the first `numClasses` lists: no list is smaller, and some list has exactly that size. |
| `SiamesePairs.StepsPerClass` | MINST_Siamese.py:42-44 | Each class contributes `max(min size - 1, 0)` steps. This is zero exactly when some class has fewer than two samples. Otherwise every class has more entries than the step count, and some class has exactly one more. |
| `SiamesePairs.Partner` | MINST_Siamese.py:47-48 | For `1 <= inc < numClasses`, the negative class `(d + inc) % numClasses` is a class and is never `d` itself. |
| `SiamesePairs.PartnerIsBijective` | MINST_Siamese.py:47-48 | Each class other than `d` is the partner of `d` for exactly one offset in `[1, numClasses)`. So a uniform offset picks a uniform other class. |
| `SiamesePairs.PositionsAt` | MINST_Siamese.py:43-50 | The `k`-th pair of positions is as follows. For even `k`, it is two consecutive entries of one class's list. For odd `k`, it is the entries at the same place in the lists of two different classes. |
| `SiamesePairs.PairsOfStep` | MINST_Siamese.py:44-50 | Pair `2 * (d * n + i)` is entries `i` and `i + 1` of class `d`. Pair `2 * (d * n + i) + 1` is entry `i` of class `d` and entry `i` of the class chosen by offset number `d * n + i`. All these indices, and that offset number, are in bounds. |
| `SiamesePairs.CreatePairs` | MINST_Siamese.py:36-52 | `pairs` and `labels` both have length `2 * numClasses * n`. The labels alternate `1, 0, …` starting with 1, so `numClasses * n` of them are 1 and as many are 0. Pair `k` is the images in `x` at the positions `PositionsAt` gives for `k`, and these lookups are in bounds. Both outputs are empty, with no error, when some class has fewer than two samples. |
| `SiamesePairs.AlternatingIsBalanced` | MINST_Siamese.py:51 | An alternating label list of even length has as many `1`s as `0`s, each half of its length. `CreatePairs` uses it to ensure that its output has `numClasses * n` positive and `numClasses * n` negative pairs. |
| `SiamesePairs.SameLabelExactlyWhenPositive` | MINST_Siamese.py:43-51 | Take any table whose lists are ascending and hold only positions labelled with their own class. The two positions of the `k`-th pair are valid, and they hold the same label if and only if `k` is even. The two positions of a positive pair are distinct, the first one earlier. |
| `SiamesePairs.SameDigitExactlyWhenPositive` | MINST_Siamese.py:43-51 | Take the table built from the labels `y`. The two positions of the `k`-th pair are valid, and they hold the same digit if and only if `k` is even, that is, if and only if its label is 1. The two positions of a positive pair are distinct, the first one earlier. |
| `Accuracy.CountMatches` | MINST_Siamese.py:70-71 | The number of agreeing pairs is at most the number of pairs. It equals the number of pairs if and only if every pair agrees, and it is zero if and only if none does. |
| `Accuracy.ComputeAccuracy` | MINST_Siamese.py:67-71 | With no pairs the result is NaN (`None`). Otherwise it is the number of agreeing pairs divided by the number of pairs (the mean of the agreements), a value in `[0, 1]`. |
| `Accuracy.PerfectAccuracy` | MINST_Siamese.py:70-71 | For a non-empty input, the accuracy is 1 if and only if every label-1 distance is below 0.5 and every label-0 distance is at least 0.5. |
| `Accuracy.ZeroAccuracy` | MINST_Siamese.py:70-71 | For a non-empty input with 0/1 labels, the accuracy is 0 if and only if every label-1 distance is at least 0.5 and every label-0 distance is below 0.5. |

Behaviour of the script worth noting:
- **The index table does not cover every position.** It holds only positions
  whose label lies in `[0, num_classes)`, not the whole split; for the digit
  dataset these are the same.
- **A class with fewer than two samples does not fail.** `create_pairs`
  returns two empty lists without any error.
- **Agreement is a comparison of a boolean with an integer label.**
  `pred == y_true` compares the boolean prediction with the integer label,
  so `True` equals only 1 and `False` only 0. A label other than 0 or 1
  therefore never agrees, whatever the distance. `Matches` models this
  exactly, and `ZeroAccuracy` assumes 0/1 labels for that reason.

## Left out

- Model construction, training, prediction and the optimizer (MINST_Siamese.py:54-65, 97-122) are calls into the deep-learning framework and are not part of this model.
- `euclidean_distance` and `contrastive_loss` (MINST_Siamese.py:17-19, 27-33) are floating-point tensor arithmetic through the framework backend; not modelled.
- `accuracy` (MINST_Siamese.py:74-77) is the tensor-form twin of `compute_accuracy` built on backend casts; not modelled.
- `eucl_dist_output_shape` (MINST_Siamese.py:22-24) is framework shape glue; not modelled.
- Dataset download, reshape and rescaling by 255 (MINST_Siamese.py:81-88) are I/O and floating-point conversion; not modelled.
- Printing the two accuracy lines (MINST_Siamese.py:124-125) is output only; not modelled.
- The random generator `random.randrange` (MINST_Siamese.py:47) is replaced by the caller-supplied offsets `incs`. Only their range is constrained, not their distribution. `PartnerIsBijective` shows that a uniform offset yields a uniform partner class.
- SiamesePairs.CreatePairs: returns Dafny sequences of `Pair` values, not the `np.array` conversion at MINST_Siamese.py:52.
- SiamesePairs.CreatePairs: requires at least `numClasses * n` offsets. The source draws from an unbounded generator instead.
- SiamesePairs.CreatePairs: requires every listed position to index `x`. Python's negative indexing of `x` does not arise for tables built by `np.where` and is not modelled.
- Accuracy.ComputeAccuracy: requires `y_true` and the flattened `y_pred` to have equal length. numpy's broadcasting of mismatched shapes is not modelled, and neither is `ravel` itself: predictions are taken as already flat.
- Accuracy.ComputeAccuracy: models distances as exact reals. Floating-point NaN distances, and rounding in the mean, are not modelled.
