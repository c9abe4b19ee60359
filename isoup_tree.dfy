/**
 The part of the iSOUP multi-target regression tree that it adds on top of
 its Hoeffding tree base class: validation of the `leaf_prediction` and
 `split_criterion` options, the factory that builds one of six leaf variants
 and hands a parent's state to the new leaf, the growing set of target keys,
 and the dispatch of `predict_one`.

 The base class (traversal, statistics updates, split attempts) and the
 leaf models are not part of this model: the traversal result, the tree the
 base class leaves behind and the leaves' own predictions are inputs.
 */
module ISoupTree {
  import opened Wrappers

  // ---------------------------------------------------------------------
  // Options

  const TargetMean: string := "mean"
  const ModelOption: string := "model"
  const AdaptiveOption: string := "adaptive"
  /** Intra-cluster variance reduction, the only split criterion of the tree. */
  const IntraClusterVarianceReduction: string := "icvr"
  /** The base class's own criterion name, which its initialisation sets. */
  const VarianceReduction: string := "vr"

  predicate IsLeafPredictionOption(s: string) {
    s == TargetMean || s == ModelOption || s == AdaptiveOption
  }

  /** The value the `leaf_prediction` setter stores for `value`. */
  function CheckedLeafPrediction(value: string): (r: string)
    ensures IsLeafPredictionOption(r)
    ensures IsLeafPredictionOption(value) ==> r == value
    ensures !IsLeafPredictionOption(value) ==> r == ModelOption
  {
    if value !in {TargetMean, ModelOption, AdaptiveOption} then ModelOption else value
  }

  /** The value the `split_criterion` setter stores for `value`. */
  function CheckedSplitCriterion(value: string): (r: string)
    ensures r == IntraClusterVarianceReduction
  {
    var v := if value == VarianceReduction then IntraClusterVarianceReduction else value;
    if v != IntraClusterVarianceReduction then IntraClusterVarianceReduction else v
  }

  /** Setting an option twice stores what setting it once does. */
  lemma SettersIdempotent(value: string)
    ensures CheckedLeafPrediction(CheckedLeafPrediction(value)) == CheckedLeafPrediction(value)
    ensures CheckedSplitCriterion(CheckedSplitCriterion(value)) == CheckedSplitCriterion(value)
  {
  }

  // ---------------------------------------------------------------------
  // Nodes

  datatype PyError = AttributeError | KeyError | ZeroDivisionError

  datatype LeafKind = MeanLeaf | ModelLeaf | AdaptiveLeaf

  /**
   A node's statistics dictionary: `{}` (what a leaf built without initial
   statistics holds), or the total weight seen (key 0) with the per-target
   sums (key 1) and sums of squares (key 2).
   */
  datatype Stats<K> = NoStats | Observed(weight: real, sum: map<K, real>, sqSum: map<K, real>)

  /**
   A tree node. A leaf's `leafModels` is the per-target model map (absent on
   mean leaves) and `fmseMean`/`fmseModel` are the fading mean squared errors
   of an adaptive leaf (absent on other leaves); `M` is an opaque model.
   */
  datatype Node<K, M> =
    | Leaf(kind: LeafKind, active: bool, depth: nat, stats: Stats<K>,
           leafModels: Option<map<K, M>>,
           fmseMean: Option<map<K, real>>, fmseModel: Option<map<K, real>>)
    | Split(depth: nat, stats: Stats<K>)
  {
    /** A leaf carries exactly the attributes of its variant's class. */
    predicate HasOwnAttributes() {
      Leaf? ==>
        && (leafModels.Some? <==> kind != MeanLeaf)
        && (fmseMean.Some? <==> kind == AdaptiveLeaf)
        && (fmseModel.Some? <==> kind == AdaptiveLeaf)
    }
  }

  /** The six leaf classes. */
  datatype Variant =
    | ActiveMean | ActiveModel | ActiveAdaptive
    | InactiveMean | InactiveModel | InactiveAdaptive

  function VariantOf(kind: LeafKind, active: bool): Variant {
    match kind
    case MeanLeaf => if active then ActiveMean else InactiveMean
    case ModelLeaf => if active then ActiveModel else InactiveModel
    case AdaptiveLeaf => if active then ActiveAdaptive else InactiveAdaptive
  }

  function ModeKind(leafPrediction: string): LeafKind
    requires IsLeafPredictionOption(leafPrediction)
  {
    if leafPrediction == TargetMean then MeanLeaf
    else if leafPrediction == ModelOption then ModelLeaf
    else AdaptiveLeaf
  }

  /** Each (mode, active) pair names one variant and each variant is named by one pair. */
  lemma VariantOfOneToOne(m1: string, a1: bool, m2: string, a2: bool)
    requires IsLeafPredictionOption(m1) && IsLeafPredictionOption(m2)
    ensures VariantOf(ModeKind(m1), a1) == VariantOf(ModeKind(m2), a2) <==> m1 == m2 && a1 == a2
  {
  }

  /**
   Whether `parent` has the attributes a new leaf of `kind` copies from it;
   Python raises AttributeError when it has not.
   */
  predicate CanParent<K, M>(kind: LeafKind, parent: Node<K, M>) {
    match kind
    case MeanLeaf => true
    case ModelLeaf => parent.Leaf? && parent.leafModels.Some?
    case AdaptiveLeaf =>
      parent.Leaf? && parent.leafModels.Some? && parent.fmseMean.Some? && parent.fmseModel.Some?
  }

  /**
   `_new_learning_node(initial_stats, parent, is_active)` for the stored
   `leaf_prediction` option. The copies Python makes (`deepcopy`, `.copy()`)
   are implicit: nodes are values. An adaptive leaf's constructor starts
   both fading-error maps empty.
   */
  function NewLearningNode<K, M>(leafPrediction: string, initialStats: Option<Stats<K>>,
                                 parent: Option<Node<K, M>>, isActive: bool): (r: Result<Node<K, M>, PyError>)
    requires IsLeafPredictionOption(leafPrediction)
    ensures r.Err? <==> parent.Some? && !CanParent(ModeKind(leafPrediction), parent.value)
    ensures r.Err? ==> r.error == AttributeError
    ensures r.Ok? ==> r.value.Leaf? && r.value.HasOwnAttributes()
    ensures r.Ok? ==> VariantOf(r.value.kind, r.value.active) == VariantOf(ModeKind(leafPrediction), isActive)
    ensures r.Ok? ==> r.value.depth == if parent.Some? then parent.value.depth + 1 else 0
    ensures r.Ok? ==> r.value.stats == if initialStats.Some? then initialStats.value else NoStats
    ensures r.Ok? && leafPrediction != TargetMean ==>
      r.value.leafModels == if parent.None? then Some(map[]) else parent.value.leafModels
    ensures r.Ok? && leafPrediction == AdaptiveOption && parent.None? ==>
      r.value.fmseMean == Some(map[]) && r.value.fmseModel == Some(map[])
    ensures r.Ok? && leafPrediction == AdaptiveOption && parent.Some? && isActive ==>
      r.value.fmseMean == parent.value.fmseMean && r.value.fmseModel == parent.value.fmseModel
    ensures r.Ok? && leafPrediction == AdaptiveOption && parent.Some? && !isActive ==>
      r.value.fmseMean == parent.value.fmseModel && r.value.fmseModel == Some(map[])
  {
    var stats := if initialStats.None? then NoStats else initialStats.value;
    var depth := if parent.Some? then parent.value.depth + 1 else 0;
    if leafPrediction == TargetMean then
      Ok(Leaf(MeanLeaf, isActive, depth, stats, None, None, None))
    else if parent.Some? && (parent.value.Split? || parent.value.leafModels.None?) then
      Err(AttributeError)
    else
      var leafModels := if parent.None? then map[] else parent.value.leafModels.value;
      if leafPrediction == ModelOption then
        Ok(Leaf(ModelLeaf, isActive, depth, stats, Some(leafModels), None, None))
      else if parent.None? then
        Ok(Leaf(AdaptiveLeaf, isActive, depth, stats, Some(leafModels), Some(map[]), Some(map[])))
      else if parent.value.fmseMean.None? || parent.value.fmseModel.None? then
        Err(AttributeError)
      else if isActive then
        Ok(Leaf(AdaptiveLeaf, isActive, depth, stats, Some(leafModels),
                parent.value.fmseMean, parent.value.fmseModel))
      else
        // the second assignment overwrites the first: `_fmse_mean` ends up
        // a copy of the parent's `_fmse_model`
        Ok(Leaf(AdaptiveLeaf, isActive, depth, stats, Some(leafModels),
                parent.value.fmseModel, Some(map[])))
  }

  /**
   Under one `leaf_prediction` mode the factory never fails: every leaf it
   builds can be the parent of the next one, however deep.
   */
  lemma {:induction false} SameModeNeverRaises<K, M>(leafPrediction: string, s1: Option<Stats<K>>,
                                                     p: Option<Node<K, M>>, a1: bool,
                                                     s2: Option<Stats<K>>, a2: bool)
    requires IsLeafPredictionOption(leafPrediction)
    requires NewLearningNode(leafPrediction, s1, p, a1).Ok?
    ensures NewLearningNode(leafPrediction, s2, Some(NewLearningNode(leafPrediction, s1, p, a1).value), a2).Ok?
  {
    var child := NewLearningNode(leafPrediction, s1, p, a1).value;
    assert child.kind == ModeKind(leafPrediction) by {
      assert VariantOf(child.kind, child.active) == VariantOf(ModeKind(leafPrediction), a1);
    }
    assert CanParent(ModeKind(leafPrediction), child);
  }

  /**
   As written, an inactive adaptive child's `_fmse_mean` is the parent's
   `_fmse_model` and its `_fmse_model` starts empty: a parent whose two error
   maps differ shows it.
   */
  lemma InactiveAdaptiveChildSwapsErrors()
    ensures var parent: Node<string, int> := Leaf(AdaptiveLeaf, true, 0, NoStats, Some(map[]),
                                                  Some(map["t" := 1.0]), Some(map["t" := 2.0]));
            var child := NewLearningNode<string, int>(AdaptiveOption, None, Some(parent), false);
            && child.Ok?
            && child.value.fmseMean == Some(map["t" := 2.0]) != parent.fmseMean
            && child.value.fmseModel == Some(map[]) != parent.fmseModel
  {
    var errors, none: map<string, real> := map["t" := 2.0], map[];
    assert errors["t"] != map["t" := 1.0]["t"];
    assert "t" in errors && "t" !in none;
  }

  /**
   The factory as the active branch shows it was meant: every adaptive child
   of a parent inherits both fading-error maps, active or not; everything
   else is as in `NewLearningNode`.
   */
  function NewLearningNodeCorrected<K, M>(leafPrediction: string, initialStats: Option<Stats<K>>,
                                          parent: Option<Node<K, M>>, isActive: bool): (r: Result<Node<K, M>, PyError>)
    requires IsLeafPredictionOption(leafPrediction)
    ensures r.Err? <==> NewLearningNode(leafPrediction, initialStats, parent, isActive).Err?
    ensures r.Ok? ==>
      var n := NewLearningNode(leafPrediction, initialStats, parent, isActive).value;
      && r.value.Leaf? && r.value.HasOwnAttributes()
      && r.value.kind == n.kind && r.value.active == n.active && r.value.depth == n.depth
      && r.value.stats == n.stats && r.value.leafModels == n.leafModels
    ensures r.Ok? && leafPrediction == AdaptiveOption && parent.Some? ==>
      r.value.fmseMean == parent.value.fmseMean && r.value.fmseModel == parent.value.fmseModel
    ensures r.Ok? && leafPrediction == AdaptiveOption && parent.None? ==>
      r.value.fmseMean == Some(map[]) && r.value.fmseModel == Some(map[])
  {
    match NewLearningNode(leafPrediction, initialStats, parent, isActive)
    case Err(e) => Err(e)
    case Ok(n) =>
      if leafPrediction == AdaptiveOption && parent.Some? then
        Ok(n.(fmseMean := parent.value.fmseMean, fmseModel := parent.value.fmseModel))
      else Ok(n)
  }

  // ---------------------------------------------------------------------
  // Prediction

  /** What `predict_one` returns: `None`, a target dictionary, or an exception. */
  datatype Prediction<K> = NoPrediction | Predicted(values: map<K, real>) | Raised(error: PyError)

  /** The base class's traversal result: the node reached (possibly null) and its parent. */
  datatype FoundNode<K, M> = FoundNode(node: Option<Node<K, M>>, parent: Option<Node<K, M>>)

  /** `(stats[1] / stats[0]).to_dict()`: the per-target mean of a node. */
  function MeanOf<K(!new)>(stats: Stats<K>): (r: Prediction<K>)
    ensures r.Predicted? <==> stats.Observed? && stats.weight != 0.0
    ensures stats.NoStats? ==> r == Raised(KeyError)
    ensures stats.Observed? && stats.weight == 0.0 ==> r == Raised(ZeroDivisionError)
    ensures r.Predicted? ==> r.values.Keys == stats.sum.Keys
    ensures r.Predicted? ==> forall k :: k in r.values ==> r.values[k] * stats.weight == stats.sum[k]
  {
    match stats
    case NoStats => Raised(KeyError)
    case Observed(w, s, _) =>
      if w == 0.0 then Raised(ZeroDivisionError) else Predicted(map k | k in s :: s[k] / w)
  }

  /**
   `predict_one(x)`, given the current root, the result of filtering `x`
   down from the root, and the leaves' own predictors.
   */
  function PredictOne<K(!new), M>(root: Option<Node<K, M>>, found: FoundNode<K, M>,
                                  leafPredict: Node<K, M> -> map<K, real>): (r: Prediction<K>)
    ensures r.NoPrediction? <==> root.None?
    ensures root.Some? && found.node.Some? && found.node.value.Leaf? ==>
      r == Predicted(leafPredict(found.node.value))
    ensures root.Some? && found.node.Some? && found.node.value.Split? ==>
      r == MeanOf(found.node.value.stats)
    ensures root.Some? && found.node.None? && found.parent.Some? ==>
      r == MeanOf(found.parent.value.stats)
    ensures root.Some? && found.node.None? && found.parent.None? ==> r == Raised(AttributeError)
  {
    if root.None? then NoPrediction
    else if found.node.Some? then
      if found.node.value.Leaf? then Predicted(leafPredict(found.node.value))
      else MeanOf(found.node.value.stats)
    else if found.parent.Some? then MeanOf(found.parent.value.stats)
    else Raised(AttributeError)
  }

  /**
   When traversal stops short of a leaf at a node whose weight is not zero,
   the prediction is that node's elementwise mean, over exactly the targets it
   has sums for.
   */
  lemma FallbackIsMean<K(!new), M>(root: Option<Node<K, M>>, found: FoundNode<K, M>,
                                   leafPredict: Node<K, M> -> map<K, real>, n: Node<K, M>)
    requires root.Some?
    requires (found.node == Some(n) && n.Split?) || (found.node.None? && found.parent == Some(n))
    requires n.stats.Observed? && n.stats.weight != 0.0
    ensures PredictOne(root, found, leafPredict).Predicted?
    ensures PredictOne(root, found, leafPredict).values.Keys == n.stats.sum.Keys
    ensures forall k :: k in n.stats.sum ==>
      PredictOne(root, found, leafPredict).values[k] == n.stats.sum[k] / n.stats.weight
  {
    var r := PredictOne(root, found, leafPredict);
    assert r == MeanOf(n.stats);
    forall k | k in n.stats.sum
      ensures r.values[k] == n.stats.sum[k] / n.stats.weight
    {
      assert r.values[k] * n.stats.weight == n.stats.sum[k];
    }
  }

  // ---------------------------------------------------------------------
  // Target bookkeeping

  /** The target set after `learn_one` has seen the targets `ys`, in order, starting from `initial`. */
  function TargetsAfter<K>(initial: set<K>, ys: seq<map<K, real>>): (r: set<K>)
    ensures initial <= r
    ensures forall i :: 0 <= i < |ys| ==> ys[i].Keys <= r
  {
    if ys == [] then initial
    else TargetsAfter(initial, ys[..|ys| - 1]) + ys[|ys| - 1].Keys
  }

  /** A target is tracked exactly when it was there at the start or some `y` had it. */
  lemma {:induction false} TargetsAfterExactly<K>(initial: set<K>, ys: seq<map<K, real>>, k: K)
    ensures k in TargetsAfter(initial, ys) <==> k in initial || exists i :: 0 <= i < |ys| && k in ys[i]
  {
    if ys != [] {
      var init := ys[..|ys| - 1];
      TargetsAfterExactly(initial, init, k);
      if exists i :: 0 <= i < |init| && k in init[i] {
        var i :| 0 <= i < |init| && k in init[i];
        assert ys[i] == init[i];
      }
      if exists i :: 0 <= i < |ys| && k in ys[i] {
        var i :| 0 <= i < |ys| && k in ys[i];
        if i < |init| {
          assert init[i] == ys[i];
        }
      }
    }
  }

  /** The target set never shrinks: after `m` calls it is contained in the set after all of them. */
  lemma {:induction false} TargetsAfterMonotone<K>(initial: set<K>, ys: seq<map<K, real>>, m: nat)
    requires m <= |ys|
    ensures TargetsAfter(initial, ys[..m]) <= TargetsAfter(initial, ys)
  {
    if m < |ys| {
      var init := ys[..|ys| - 1];
      assert init[..m] == ys[..m];
      TargetsAfterMonotone(initial, init, m);
    } else {
      assert ys[..m] == ys;
    }
  }

  // ---------------------------------------------------------------------
  // The tree

  /**
   The tree controller. `root` is `_tree_root`, which only the base class's
   learning step changes; `M` is the opaque leaf model type.
   */
  class ISoupTreeRegressor<K(==,!new), M> {
    var leafPrediction: string
    var splitCriterion: string
    var targets: set<K>
    var root: Option<Node<K, M>>

    ghost predicate Valid()
      reads this
    {
      IsLeafPredictionOption(leafPrediction) && splitCriterion == IntraClusterVarianceReduction
    }

    /**
     A tree with no root and no targets. The base class's initialisation sets
     both options through the setters (the split criterion as "vr"), and the
     tree then sets "icvr".
     */
    constructor (leafPrediction: string)
      ensures Valid()
      ensures this.leafPrediction == CheckedLeafPrediction(leafPrediction)
      ensures targets == {} && root == None
    {
      this.leafPrediction := CheckedLeafPrediction(leafPrediction);
      splitCriterion := CheckedSplitCriterion(VarianceReduction);
      splitCriterion := CheckedSplitCriterion(IntraClusterVarianceReduction);
      targets := {};
      root := None;
    }

    /** The `leaf_prediction` setter. */
    method SetLeafPrediction(value: string)
      requires Valid()
      modifies this
      ensures Valid()
      ensures leafPrediction == CheckedLeafPrediction(value)
      ensures splitCriterion == old(splitCriterion) && targets == old(targets) && root == old(root)
    {
      leafPrediction := CheckedLeafPrediction(value);
    }

    /** The `split_criterion` setter. */
    method SetSplitCriterion(value: string)
      requires Valid()
      modifies this
      ensures Valid()
      ensures splitCriterion == IntraClusterVarianceReduction
      ensures leafPrediction == old(leafPrediction) && targets == old(targets) && root == old(root)
    {
      splitCriterion := CheckedSplitCriterion(value);
    }

    /**
     `learn_one(x, y)`: adds the keys of `y` to the target set, then hands
     the sample to the base class, whose resulting tree is `grown`. The
     object itself is returned.
     */
    method LearnOne(y: map<K, real>, grown: Node<K, M>) returns (self: ISoupTreeRegressor<K, M>)
      requires Valid()
      modifies this
      ensures Valid()
      ensures self == this
      ensures targets == old(targets) + y.Keys
      ensures root == Some(grown)
      ensures leafPrediction == old(leafPrediction) && splitCriterion == old(splitCriterion)
    {
      targets := targets + y.Keys;
      root := Some(grown);
      self := this;
    }

    /** `predict_one(x)`, given the traversal result for `x` and the leaves' predictors. */
    method Predict(found: FoundNode<K, M>, leafPredict: Node<K, M> -> map<K, real>) returns (r: Prediction<K>)
      ensures r == PredictOne(root, found, leafPredict)
      ensures r.NoPrediction? <==> root.None?
    {
      r := PredictOne(root, found, leafPredict);
    }
  }
}
