# iSOUP tree controller and imbalanced-learning samplers

A Dafny model of two small stateful components of the `creme` streaming
machine-learning library.

- **The iSOUP tree controller** (`ISoupTree`, in `isoup_tree.dfy`). This is
  what the multi-target iSOUP regression tree adds on top of its Hoeffding
  tree base class. The `leaf_prediction` and `split_criterion` setters
  validate their value and fall back to a default. The leaf factory
  `_new_learning_node` builds one of six leaf variants (mean, model or
  adaptive, each active or inactive) and copies the parent's per-target
  model map and fading-error maps into the new leaf. `learn_one` keeps a
  set of target keys that only grows. `predict_one` either returns nothing
  (no root), delegates to the reached leaf, or uses the per-target mean
  `sum / weight` of the node where traversal stopped, or of its parent when
  traversal reached a null child.
  Nodes are values (`Node`: `Leaf` or `Split`), so Python's `deepcopy` and
  `.copy()` are implicit. The tree object is a class whose fields the
  setters and `learn_one` update.
- **The samplers** (`Samplers`, in `samplers.dfy`; helpers in
  `counters.dfy`). `RandomUnderSampler`, `RandomOverSampler` and
  `RandomSampler` wrap a classifier. Each `fit_one` counts the class in a
  `collections.Counter` (modelled by `Counters.Counter` with its keys in
  insertion order). The under- and over-samplers may then recompute the
  pivot class as the first key, in insertion order, with the largest ratio
  `f[k]/g[k]` or `g[k]/f[k]`. Each sampler then computes a ratio or rate and
  fits the wrapped classifier zero, one or draw-many times. The classifier
  is a class that records the samples it was fitted on.

Inputs standing for code outside the model:

- the traversal result `(node, parent)` from the base class;
- the tree the base class's learning step leaves behind (`grown`);
- each leaf's own prediction (`leafPredict`);
- the uniform draw `u` of `_rng.random()`;
- the Poisson draw, as a function `poisson` of the computed rate.

Floating-point numbers are modelled with `real`.

## Model

| member | source | states |
|---|---|---|
| `ISoupTree.CheckedLeafPrediction` | creme/tree/isoup_tree_regressor.py:116-123 | the stored option is always one of mean/model/adaptive; a valid value is kept unchanged and any other value becomes `model` |
| `ISoupTree.CheckedSplitCriterion` | creme/tree/isoup_tree_regressor.py:125-135 | whatever the input (`vr`, `icvr` or anything else), the stored criterion is `icvr` |
| `ISoupTree.SettersIdempotent` | creme/tree/isoup_tree_regressor.py:116-135 | setting either option twice stores the same value as setting it once |
| `ISoupTree.ISoupTreeRegressor.constructor` | creme/tree/isoup_tree_regressor.py:93-114 | a new tree holds the validated `leaf_prediction`, split criterion `icvr`, an empty target set and no root |
| `ISoupTree.ISoupTreeRegressor.SetLeafPrediction` | creme/tree/isoup_tree_regressor.py:116-123 | the setter stores the validated value, keeps the tree's invariant and changes nothing else |
| `ISoupTree.ISoupTreeRegressor.SetSplitCriterion` | creme/tree/isoup_tree_regressor.py:125-135 | the setter stores `icvr` and changes nothing else |
| `ISoupTree.NewLearningNode` | creme/tree/isoup_tree_regressor.py:140-183 | the new leaf's variant is fixed by (mode, active); its depth is the parent's plus one, or 0 without a parent; missing stats become `{}`; mean leaves carry no model map; model and adaptive leaves get an empty model map without a parent and the parent's map otherwise; an active adaptive child copies both of the parent's fading-error maps, while an inactive one gets the parent's `_fmse_model` as `_fmse_mean` and an empty `_fmse_model`; AttributeError exactly when the parent lacks an attribute to copy |
| `ISoupTree.VariantOfOneToOne` | creme/tree/isoup_tree_regressor.py:158-183 | two (mode, active) pairs give the same leaf variant if and only if they are equal, so exactly one of the six variants is built |
| `ISoupTree.SameModeNeverRaises` | creme/tree/isoup_tree_regressor.py:152-183 | under one mode, every leaf the factory builds can be the parent of another without AttributeError |
| `ISoupTree.InactiveAdaptiveChildSwapsErrors` | creme/tree/isoup_tree_regressor.py:177-183 | a concrete parent whose inactive adaptive child gets `_fmse_model` as its mean error and loses its model error |
| `ISoupTree.NewLearningNodeCorrected` | creme/tree/isoup_tree_regressor.py:164-183 | every adaptive child inherits both of the parent's fading-error maps, active or not; everything else matches the factory |
| `ISoupTree.MeanOf` | creme/tree/isoup_tree_regressor.py:238 | `stats[1] / stats[0]` has exactly the keys of the sums and each value times the weight is that key's sum; it raises KeyError on `{}` and ZeroDivisionError on weight 0 |
| `ISoupTree.PredictOne` | creme/tree/isoup_tree_regressor.py:229-244 | the result is None exactly when there is no root; otherwise it is the leaf's own prediction at a leaf, the node's mean at a split node, the parent's mean at a null node, or AttributeError when that null node has no parent |
| `ISoupTree.FallbackIsMean` | creme/tree/isoup_tree_regressor.py:236-241 | when traversal stops at a split node or at a null child whose node has non-zero weight, the prediction maps exactly the keys of `stats[1]` to `stats[1][k] / stats[0]` |
| `ISoupTree.ISoupTreeRegressor.Predict` | creme/tree/isoup_tree_regressor.py:215-244 | predicting reads the tree without changing it and returns `PredictOne` of its root; None exactly when there is no root |
| `ISoupTree.ISoupTreeRegressor.LearnOne` | creme/tree/isoup_tree_regressor.py:185-213 | the new target set is the old set together with the keys of `y`; the same object is returned; afterwards the tree has a root |
| `ISoupTree.TargetsAfter` | creme/tree/isoup_tree_regressor.py:207-208 | the target set after a sequence of samples contains the initial set and the keys of every sample |
| `ISoupTree.TargetsAfterExactly` | creme/tree/isoup_tree_regressor.py:207-208 | a key is tracked if and only if it was tracked initially or some sample has it |
| `ISoupTree.TargetsAfterMonotone` | creme/tree/isoup_tree_regressor.py:207-208 | the set after any prefix of the samples is contained in the set after all of them |
| `Counters.Counter.Increment` | creme/imblearn/random.py:34 | `counter[y] += 1` raises the count of `y` by exactly one, leaves every other count unchanged, and appends `y` to the key order only when it is new |
| `Counters.IncrementTotal` | creme/imblearn/random.py:126-127 | each increment raises the total of all counts by exactly one |
| `Samplers.FirstArgMax` | creme/imblearn/random.py:40 | like Python's `max` with a key, the index returned has a maximal score and every earlier key scores strictly less |
| `Samplers.Pivot` | creme/imblearn/random.py:38-40 | the pivot is a seen class whose score is maximal; any other class listed before it scores strictly less. The under-sampler scores a class `k` by `f[k] / g[k]` (`UnderScores`), the over-sampler by `g[k] / f[k]` (`OverScores`, line 86) |
| `Samplers.LikelihoodRatioAtMostOne` | creme/imblearn/random.py:45-47 | because the pivot is the argmax of `f/g`, the ratio `f[y] / (M * g[y])` is at most 1, and exactly 1 when `y` is the pivot |
| `Samplers.NewPivotNotFitted` | creme/imblearn/random.py:46-50 | a class that has just become the pivot is not fitted by the under-sampler |
| `Samplers.OverRateAtLeastOne` | creme/imblearn/random.py:91-92 | because the pivot is the argmax of `g/f`, the rate `M * f[y] / g[y]` is at least 1, and exactly 1 when `y` is the pivot |
| `Samplers.SamplingRateIsScaledRatio` | creme/imblearn/random.py:131 | the mixed sampler's rate equals `sampling_rate * f[y] * n / g[y]` |
| `Samplers.Classifier.FitRepeatedly` | creme/imblearn/random.py:94-95 | fitting in a loop `times` times appends exactly `times` copies of `(x, y)` to the classifier's fits |
| `Samplers.RandomUnderSampler.constructor` | creme/imblearn/random.py:26-30 | a new under-sampler has an empty counter and no pivot |
| `Samplers.RandomUnderSampler.FitOne` | creme/imblearn/random.py:32-52 | the count of `y` rises by one; if `y` was the pivot, the pivot stays and the classifier is fitted exactly once; otherwise the pivot becomes the argmax of `f/g` over the seen classes and the classifier is fitted once if the ratio is below 1 and the draw is below the ratio, else not at all; the pivot is always a seen class |
| `Samplers.RandomOverSampler.constructor` | creme/imblearn/random.py:72-76 | a new over-sampler has an empty counter and no pivot |
| `Samplers.RandomOverSampler.FitOne` | creme/imblearn/random.py:78-97 | the count of `y` rises by one; if `y` was the pivot, the pivot stays and the classifier is fitted exactly once; otherwise the pivot becomes the argmax of `g/f` and the classifier is fitted exactly as many times as the Poisson draw for the rate |
| `Samplers.RandomSampler.constructor` | creme/imblearn/random.py:117-122 | a new mixed sampler has an empty counter and `_n == 0` |
| `Samplers.RandomSampler.FitOne` | creme/imblearn/random.py:124-136 | the count of `y` and `_n` each rise by one, `_n` stays equal to the total of all counts, and the classifier is fitted exactly as many times as the Poisson draw for `sampling_rate * f[y] / (g[y] / _n)` |

## Findings

| source | as written | input that shows it | evidently intended | confidence | as-written member | corrected member |
|---|---|---|---|---|---|---|
| creme/tree/isoup_tree_regressor.py:180-181 | the inactive adaptive branch assigns `_fmse_mean` twice, so the child's `_fmse_mean` is a copy of the parent's `_fmse_model` and its `_fmse_model` stays empty | an adaptive parent with `_fmse_mean = {t: 1.0}` and `_fmse_model = {t: 2.0}`, deactivated into an inactive child: the child gets `_fmse_mean = {t: 2.0}` and `_fmse_model = {}` | as in the active branch (lines 166-168), the child copies `_fmse_mean` from `_fmse_mean` and `_fmse_model` from `_fmse_model` | high (not executed) | `ISoupTree.InactiveAdaptiveChildSwapsErrors` (about `ISoupTree.NewLearningNode`) | `ISoupTree.NewLearningNodeCorrected` |

## Notes on the code

- An active adaptive child copies both of the parent's fading-error maps.
  An inactive one does not (see Findings). `NewLearningNode` models the
  code as written.
- `predict_one` has no parent fallback for a split node of weight 0. It
  divides by that node's `stats[0]` and raises ZeroDivisionError, as
  `PredictOne` models. The parent's statistics are used only when the
  traversal reached a null node.

## Left out

- The Hoeffding tree base class is not part of this model: `super().learn_one`, `filter_instance_to_leaf`, split attempts, the Hoeffding bound, attribute observers, the grace-period counter, the split criterion object (`_new_split_criterion`) and the node classes' learning code. The traversal result and the root that the base class produces are inputs.
- `ISoupTree.ISoupTreeRegressor.LearnOne` does not take `x` or `sample_weight`, because they only go to the base class. The VectorDict wrapping of `y` is left out for the same reason.
- Configuration other than the two options (grace period, split confidence, tie threshold, binary split, leaf model, decay, nominal attributes) is only read by the base class and is left out.
- Leaf-model training and prediction are foreign calls. Models are an opaque type `M`, and a leaf's prediction is the input function `leafPredict`.
- `deepcopy` and `.copy()` are value copies because nodes are values. That the child's model map is independent of the parent's therefore holds by construction, and object aliasing is not modelled.
- The adaptive leaf constructor is not part of this model. Its fading-error maps are taken to start empty.
- VectorDict is not part of this model. `ISoupTree.MeanOf` assumes that dividing by a zero weight raises ZeroDivisionError even when the sums are empty.
- Randomness: `_rng.random()` is the parameter `u`, and `_rng.poisson(rate)` is the parameter function `poisson` applied to the computed rate. Distributions are not modelled.
- The `print` diagnostics in the setters are output, and only the stored value is modelled.
- Float rounding: ratios, rates and means are `real`.
- `Samplers.RandomUnderSampler.FitOne`, `Samplers.RandomOverSampler.FitOne`, `Samplers.RandomSampler.FitOne`: these require that `y` is a key of `desired_dist`. For another `y`, Python raises KeyError after the count has already been raised; that path is not modelled.
- `Samplers.RandomUnderSampler.constructor`, `Samplers.RandomOverSampler.constructor`: these require every desired proportion to be positive. With a zero proportion Python can divide by zero, and that path is not modelled.
- The docstring example uses an external data stream and is not modelled.
