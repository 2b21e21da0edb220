# Blueoil object-detection builder and classification base, in Dafny

This project models two small parts of Blueoil.

1. **The object-detection dataset builder.** This is the builder for the TensorFlow Datasets format (`blueoil/utils/tfds_builders/object_detection.py`).
   - It walks a dataset of `(image, annotations)` pairs and yields one example per image, keyed 0, 1, 2, … in order.
   - It drops every annotation with the "no object" label `-1`.
   - It turns each remaining pixel box `(xmin, ymin, w, h)` into a y-first box normalised to the image size. Only the max edges are clamped at 1.
   - It sizes each split as the ceiling of its summed image bytes over 256 MiB.
   - It builds one split per available subset. `train`, `validation` and `test` map to the predefined split ids; any other subset name is used as it is.
2. **The classification network base** (`lmnet/lmnet/networks/classification/base.py`).
   - The placeholder shapes for the `NHWC` and channels-first layouts.
   - The loss: the cross-entropy mean, plus an optional L2 weight-decay term over the variables whose name contains `kernel`.
   - The tie-aware top-k accuracy. An example's value is `in_top_k` of its true class, divided by the number of classes whose score equals the k-th largest score.
   - The running means of the top-1, top-3 and top-5 accuracy. Top-3 and top-5 are fed ones when there are at most 3 or 5 classes.

Files:
- `wrappers.dfy`: `Option` and `Result`.
- `object_detection.dfy`: module `ObjectDetection`.
- `top_k.dfy`: module `TopK`, the per-example value of `calc_top_k`.
- `streaming_mean.dfy`: module `StreamingMean`, the (total, count) accumulator behind `tf.metrics.mean`.
- `classification_base.dfy`: module `ClassificationBase`, covering placeholders, loss, weight decay, the batch metric values and the `Metrics` class.

Modelling choices:
- Coordinates and scores are exact reals.
- Images are reduced to their height, width, channel count and byte size.
- Trainable variables are a name and a sequence of values.
- The k-th largest score is the value at index k-1 of the scores sorted from the highest down. This is what `tf.nn.top_k` returns.
- `tf.nn.in_top_k` admits the target when fewer than k classes score strictly higher.
- The true class is `argmax` of the one-hot label row: the first true entry, or 0 when the row has none.

Edge cases of the code that the model keeps:
- **Empty split.** An empty split gets 0 shards. `object_detection.py:97` is a plain ceiling division with no minimum of 1.
- **Axis order.** On a 100×50 (height×width) image, `(xmin=10, ymin=5, w=20, h=10)` gives `(0.05, 0.2, 0.15, 0.6)`. y is divided by the height, x by the width, and the output is y-first.
- **No kernel variables.** With decay enabled and no variable named like a kernel, `tf.add_n([])` raises. The model returns `Failure(NoKernelVariables)`.

## Model

| member | source | states |
|---|---|---|
| `ObjectDetection.NormalizeBox` | blueoil/utils/tfds_builders/object_detection.py:77-82 | The box is y-first: ymin and xmin, scaled back by height and width, give the pixel origin. ymax and xmax never exceed 1, and below 1 they are the pixel far edges `ymin + h` and `xmin + w` scaled down. |
| `ObjectDetection.ConvertObjects` | blueoil/utils/tfds_builders/object_detection.py:74-86 | No emitted object carries the sentinel label -1. There are never more objects than annotations. |
| `ObjectDetection.ConvertObjectsKeepsOrder` | blueoil/utils/tfds_builders/object_detection.py:74-86 | There are exactly as many objects as non-sentinel annotations. Each non-sentinel annotation appears once, normalised, at the position given by the number of kept annotations before it, so the original order is kept. |
| `ObjectDetection.MaxEdgesClamped` | blueoil/utils/tfds_builders/object_detection.py:80-81 | The emitted ymax and xmax never exceed 1.0. Each equals 1.0 exactly when the box reaches or passes that image edge. |
| `ObjectDetection.MinEdgesNotClamped` | blueoil/utils/tfds_builders/object_detection.py:78-79 | ymin and xmin are not clamped: an annotation outside the image gives values above 1. |
| `ObjectDetection.NormalizedBoxInUnitSquare` | blueoil/utils/tfds_builders/object_detection.py:72-82 | An annotation whose origin lies inside the image and whose size is non-negative gives `0 <= ymin <= ymax <= 1` and `0 <= xmin <= xmax <= 1`. |
| `ObjectDetection.NormalizeBoxExamples` | blueoil/utils/tfds_builders/object_detection.py:77-82 | On a 100×50 image, `(10, 5, 20, 10)` gives `(0.05, 0.2, 0.15, 0.6)`, and `(45, 0, 20, 100)` clamps to `(0, 0.9, 1, 1)`. |
| `ObjectDetection.GenerateExamples` | blueoil/utils/tfds_builders/object_detection.py:70-91 | One example per image, keyed 0, 1, 2, … in iteration order. The image is passed through unchanged, and the objects are that image's converted annotations. |
| `ObjectDetection.TotalSize` | blueoil/utils/tfds_builders/object_detection.py:96 | The summed byte size of the dataset's images is at least the size of any one image. |
| `ObjectDetection.NumShards` | blueoil/utils/tfds_builders/object_detection.py:93-97 | The shard count, the ceiling of the total over 256 MiB, is enough shards to hold the whole dataset. |
| `ObjectDetection.NumShardsIsCeiling` | blueoil/utils/tfds_builders/object_detection.py:93-97 | `shards * 256 MiB >= total`. A positive total gets at least one shard and `(shards - 1) * 256 MiB < total`. A zero total gets 0 shards. |
| `ObjectDetection.NumShardsUnique` | blueoil/utils/tfds_builders/object_detection.py:93-97 | Any count that is the ceiling of total / 256 MiB equals the computed shard count. |
| `ObjectDetection.SplitNameOf` | blueoil/utils/tfds_builders/object_detection.py:51-62 | The split id of a subset always stands for the subset's own name. `train`, `validation` and `test` give the predefined ids; any other name is kept verbatim. |
| `ObjectDetection.SplitNameRoundTrip` | blueoil/utils/tfds_builders/object_detection.py:51-62 | A split is always named after its subset. It is a predefined id exactly when the subset is `train`, `validation` or `test`. |
| `ObjectDetection.SplitGenerators` | blueoil/utils/tfds_builders/object_detection.py:57-68 | One split per available subset, in the same order. Each split has the subset's split name, its dataset's shard count and that dataset. |
| `TopK.SortDescendingCorrect` | lmnet/lmnet/networks/classification/base.py:187 | The sorted scores are a permutation of the scores, ordered from the highest down. |
| `TopK.SortDescendingCount` | lmnet/lmnet/networks/classification/base.py:187 | Sorting does not change how many scores lie above, at or equal to any threshold. |
| `TopK.KthLargest` | lmnet/lmnet/networks/classification/base.py:187-190 | The k-th largest score is one of the scores. Fewer than k scores are strictly above it and at least k are at or above it. |
| `TopK.CountBorderValues` | lmnet/lmnet/networks/classification/base.py:189-190 | The number of classes tied at the k-th largest score is between 1 and the number of classes, so the division never divides by zero. |
| `TopK.FewerAboveIffReachesBoundary` | lmnet/lmnet/networks/classification/base.py:187-188 | A score has fewer than k scores strictly above it exactly when it is at least the k-th largest score. |
| `TopK.InTopK` | lmnet/lmnet/networks/classification/base.py:188 | `in_top_k` holds exactly when the true class's score is at least the k-th largest score. Ties straddling the boundary are admitted. |
| `TopK.TopKValue` | lmnet/lmnet/networks/classification/base.py:187-191 | The per-example value lies in [0, 1]. It is positive exactly when the true class is in the top k, and then it equals 1 / (number of tied boundary classes). |
| `TopK.BelowBoundaryScoresZero` | lmnet/lmnet/networks/classification/base.py:188-191 | A true class scoring below the k-th largest score gets 0. |
| `TopK.UniqueBoundaryIsPlainTopK` | lmnet/lmnet/networks/classification/base.py:185-191 | When one class alone holds the k-th largest score, the value is 1 for a hit and 0 for a miss. |
| `TopK.Top1DistinctIsArgmaxAccuracy` | lmnet/lmnet/networks/classification/base.py:185-196 | With k = 1 and distinct scores, the value is 1 exactly when the true class strictly beats every other class, and 0 otherwise. |
| `TopK.TiedBoundaryExamples` | lmnet/lmnet/networks/classification/base.py:187-191 | `[0.4, 0.3, 0.3]` with true class 1 gives 0.5 for k = 2 and 0 for k = 1. `[0.5, 0.3, 0.3]` with true class 0 and k = 2 gives 0.5. |
| `StreamingMean.Mean` | lmnet/lmnet/networks/classification/base.py:196 | The running mean times the number of values fed gives their total. It reads 0 when nothing has been fed. |
| `StreamingMean.MeanInUnitInterval` | lmnet/lmnet/networks/classification/base.py:196-206 | A running mean of values in [0, 1] lies in [0, 1]. |
| `StreamingMean.MeanOfOnes` | lmnet/lmnet/networks/classification/base.py:200-206 | A running mean fed only ones reads 1 once anything has been fed. |
| `StreamingMean.MeanMetric.constructor` | lmnet/lmnet/networks/classification/base.py:196 | A new metric has been fed nothing. |
| `StreamingMean.MeanMetric.Value` | lmnet/lmnet/networks/classification/base.py:196 | The metric reads the mean of every value fed so far, and 0 when nothing has been fed. |
| `StreamingMean.MeanMetric.Update` | lmnet/lmnet/networks/classification/base.py:196 | An update appends the batch to the fed values, keeps total and count equal to their sum and number, and returns the new mean. |
| `ClassificationBase.Placeholders` | lmnet/lmnet/networks/classification/base.py:52-62 | The images shape is `(batch, H, W, 3)` for `"NHWC"` and `(batch, 3, H, W)` for any other format. The labels shape is `(batch, num_classes)`. |
| `ClassificationBase.LayoutsAreTransposes` | lmnet/lmnet/networks/classification/base.py:52-53 | Transposing the channels-first shape with `[0, 2, 3, 1]` gives the channels-last shape, as the image summary does at line 154. `[0, 3, 1, 2]` goes back. |
| `ClassificationBase.L2Loss` | lmnet/lmnet/networks/classification/base.py:87 | `l2_loss`, half the sum of squares of a variable's values, is never negative. |
| `ClassificationBase.ContainsIffOccurs` | lmnet/lmnet/networks/classification/base.py:85 | The `"kernel" in var.name` test holds exactly when the word occurs at some offset of the name. |
| `ClassificationBase.IsKernel` | lmnet/lmnet/networks/classification/base.py:85 | A variable is decayed exactly when `kernel` occurs at some offset of its name. |
| `ClassificationBase.WeightDecay` | lmnet/lmnet/networks/classification/base.py:80-89 | The decay term fails, as `add_n([])` does, exactly when no variable is a kernel. Otherwise it is the summed kernel l2 losses times the rate. |
| `ClassificationBase.WeightDecayLoss` | lmnet/lmnet/networks/classification/base.py:78-89 | The loop collects exactly the kernel variables' l2 losses, in order. The result is their sum times the rate, or the `add_n` error when there are none. |
| `ClassificationBase.NonKernelVariablesIgnored` | lmnet/lmnet/networks/classification/base.py:82-87 | Adding variables whose names do not contain `kernel`, such as batch-norm parameters, leaves the decay term unchanged. |
| `ClassificationBase.WeightDecayNonNegativeAndLinear` | lmnet/lmnet/networks/classification/base.py:87-89 | The decay term scales linearly with the rate, whatever its sign. With a non-negative rate the term is non-negative. |
| `ClassificationBase.DecayEnabled` | lmnet/lmnet/networks/classification/base.py:110 | The decay term is added exactly when the rate is not one of Python's falsy values, None and 0. |
| `ClassificationBase.Loss` | lmnet/lmnet/networks/classification/base.py:106-117 | When the rate is None or 0, the loss is the cross-entropy mean. Otherwise it is that mean plus the decay term, or the decay term's error. |
| `ClassificationBase.ArgmaxLabel` | lmnet/lmnet/networks/classification/base.py:183 | The true class is the first true entry of the one-hot row, or 0 when the row has none. It is always a valid class index. |
| `ClassificationBase.CalcTopK` | lmnet/lmnet/networks/classification/base.py:185-191 | One value per example, each in [0, 1]. Each is the tie-aware top-k value of that example's scores and true class. |
| `ClassificationBase.TopKOrOnes` | lmnet/lmnet/networks/classification/base.py:198-206 | The values fed to the top-3 or top-5 metric lie in [0, 1], one per example. They are `calc_top_k` of the batch when there are more than k classes, and all ones otherwise. |
| `ClassificationBase.Metrics.constructor` | lmnet/lmnet/networks/classification/base.py:196-206 | Three fresh, distinct, empty running means. |
| `ClassificationBase.Metrics.Update` | lmnet/lmnet/networks/classification/base.py:196-208 | The grouped update feeds top-1, top-3 (or ones) and top-5 (or ones) values to the three means and returns the new means. Every fed value stays in [0, 1]. Returning the means is the model's convenience: the source's grouped op returns nothing, and the means are what the three `*_update` ops return. |
| `ClassificationBase.Metrics.Report` | lmnet/lmnet/networks/classification/base.py:196-210 | Each reported accuracy is the running mean of everything fed, in [0, 1]. With at most 3 (or 5) classes, top-3 (or top-5) reads 1 once fed. |

## Left out

- The dataset format's machinery is not modelled: `DatasetInfo`, the feature dictionary, `BBoxFeature`, `SplitGenerator`, `VERSION` and the assignment of label names (`object_detection.py:35-49`). These are library objects. Split names are a datatype, boxes are four reals, and a split generator is a record.
- Image decoding and `image.nbytes` are not modelled. An image is its shape and a given byte count.
- Dataset-class construction and its errors are not modelled. Opening a subset is a function parameter, `open`.
- Errors raised while iterating a dataset are not modelled, because the dataset is a given sequence.
- Python float rounding in the box divisions is not modelled: the model uses exact reals.
- ObjectDetection.ConvertObjects: requires a non-zero image size unless every annotation is the sentinel. Python divides only for kept annotations, so only that case would raise a `ZeroDivisionError`, and the model excludes it instead of modelling the exception.
- Softmax, `tf.log` and the clipping at 1e-10 in the cross-entropy are not modelled. They are floating-point transcendentals. `Loss` receives the cross-entropy mean as a value.
- `inference` is not modelled. It applies the subclass's feature extractor and a softmax, and both are outside this model.
- `_heatmaps` and the heatmap branch of `summary` are not modelled: bicubic resize, min-max normalisation and the colour lookup table are numeric plotting code. The layout transpose at `base.py:154` is kept as `LayoutsAreTransposes`.
- `tf.summary`, `tf.Print` debug output and `print` logging are not modelled.
- TensorFlow graph and session semantics, `tf.group`'s scheduling and variable scopes are not modelled. `Metrics.Update` applies the three updates in sequence.
- ClassificationBase.Metrics.Update: returns the three new means. The grouped op of `base.py:208` has no outputs; only the three individual update ops return means.
- The trainable-variable registry is an explicit sequence of variables.
- ClassificationBase.Placeholders: the batch size is a natural number. An unknown (`None`) batch dimension is not modelled.
