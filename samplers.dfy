/**
 The three imbalanced-learning samplers. Each wraps a classifier and, on
 every `fit_one(x, y)`, counts the class `y` and then fits the wrapped
 classifier on `(x, y)` a number of times chosen so that the classes the
 classifier sees follow a desired distribution.

 The random draws are inputs: `u` is the uniform draw of `_rng.random()`, and
 `poisson` gives the draw of `_rng.poisson(rate)` for the rate the sampler
 computes. The wrapped classifier only records what it was fitted on.
 */
module Samplers {
  import opened Wrappers
  import opened Counters

  /** The wrapped classifier, reduced to the list of samples it was fitted on. */
  class Classifier<X, C> {
    var fits: seq<(X, C)>

    constructor ()
      ensures fits == []
    {
      fits := [];
    }

    method FitOne(x: X, y: C)
      modifies this
      ensures fits == old(fits) + [(x, y)]
    {
      fits := fits + [(x, y)];
    }

    /** `for _ in range(times): classifier.fit_one(x, y)`. */
    method FitRepeatedly(x: X, y: C, times: nat)
      modifies this
      ensures fits == old(fits) + Repeat((x, y), times)
    {
      for i := 0 to times
        invariant fits == old(fits) + Repeat((x, y), i)
      {
        FitOne(x, y);
      }
    }
  }

  /** `n` copies of `t`. */
  function Repeat<T>(t: T, n: nat): (r: seq<T>)
    ensures |r| == n
    ensures forall i :: 0 <= i < n ==> r[i] == t
  {
    if n == 0 then [] else Repeat(t, n - 1) + [t]
  }

  // ---------------------------------------------------------------------
  // Choosing the pivot

  /**
   The index Python's `max(keys, key=...)` picks: the first key whose score
   is maximal, because `max` only replaces its candidate by a strictly
   larger one.
   */
  function FirstArgMax<C>(keys: seq<C>, score: map<C, real>): (i: nat)
    requires |keys| > 0
    requires forall j :: 0 <= j < |keys| ==> keys[j] in score
    ensures i < |keys|
    ensures forall j :: 0 <= j < |keys| ==> score[keys[j]] <= score[keys[i]]
    ensures forall j :: 0 <= j < i ==> score[keys[j]] < score[keys[i]]
  {
    if |keys| == 1 then 0
    else
      var best := FirstArgMax(keys[..|keys| - 1], score);
      if score[keys[|keys| - 1]] > score[keys[best]] then |keys| - 1 else best
  }

  /** Every class seen so far has a positive desired proportion. */
  ghost predicate DesiredCovers<C(!new)>(f: map<C, real>, g: Counter<C>) {
    forall c :: c in g.counts ==> c in f && f[c] > 0.0
  }

  /** `f[k] / g[k]` for every seen class `k`: the under-sampler's score. */
  function UnderScores<C(!new)>(f: map<C, real>, g: Counter<C>): (s: map<C, real>)
    requires g.Valid() && DesiredCovers(f, g)
    ensures s.Keys == g.counts.Keys
    ensures forall k :: k in s ==> s[k] > 0.0
  {
    map k | k in g.counts :: f[k] / (g.counts[k] as real)
  }

  /** `g[k] / f[k]` for every seen class `k`: the over-sampler's score. */
  function OverScores<C(!new)>(f: map<C, real>, g: Counter<C>): (s: map<C, real>)
    requires g.Valid() && DesiredCovers(f, g)
    ensures s.Keys == g.counts.Keys
    ensures forall k :: k in s ==> s[k] > 0.0
  {
    map k | k in g.counts :: (g.counts[k] as real) / f[k]
  }

  /**
   The seen class with the highest score, the first one in insertion order
   among equals.
   */
  function Pivot<C(!new)>(g: Counter<C>, score: map<C, real>): (p: C)
    requires g.Valid() && |g.order| > 0 && score.Keys == g.counts.Keys
    ensures p in g.counts
    ensures forall k :: k in g.counts ==> score[k] <= score[p]
    ensures forall j :: 0 <= j < |g.order| && g.order[j] != p ==>
      score[g.order[j]] < score[p] || exists i :: 0 <= i < j && g.order[i] == p
  {
    var i := FirstArgMax(g.order, score);
    assert forall k :: k in g.counts ==> score[k] <= score[g.order[i]] by {
      forall k | k in g.counts
        ensures score[k] <= score[g.order[i]]
      {
        var j :| 0 <= j < |g.order| && g.order[j] == k;
      }
    }
    assert forall j :: 0 <= j < i ==> g.order[j] != g.order[i];
    g.order[i]
  }

  // ---------------------------------------------------------------------
  // Rates

  /**
   The under-sampler's acceptance ratio `f[y] / (M * g[y])` with the
   likelihood ratio `M = f[p] / g[p]` of the pivot `p`.
   */
  function LikelihoodRatio(fy: real, gy: nat, fp: real, gp: nat): real
    requires fp > 0.0 && gp > 0 && gy > 0
  {
    var m := fp / (gp as real);
    assert m * (gy as real) > 0.0;
    fy / (m * (gy as real))
  }

  /** Whether the under-sampler fits the classifier on `y`, for pivot `p` and uniform draw `u`. */
  predicate UnderAccepts<C(!new)>(f: map<C, real>, g: Counter<C>, p: C, y: C, u: real)
    requires g.Valid() && DesiredCovers(f, g)
    requires p in g.counts && y in g.counts
  {
    var ratio := LikelihoodRatio(f[y], g.counts[y], f[p], g.counts[p]);
    ratio < 1.0 && u < ratio
  }

  /** The over-sampler's Poisson rate `M * f[y] / g[y]` with `M = g[p] / f[p]`. */
  function OverRate(fy: real, gy: nat, fp: real, gp: nat): real
    requires fp > 0.0 && gy > 0
  {
    var m := (gp as real) / fp;
    m * fy / (gy as real)
  }

  /** The mixed sampler's Poisson rate `sampling_rate * f[y] / (g[y] / n)`. */
  function SamplingRate<C(!new)>(samplingRate: real, f: map<C, real>, g: Counter<C>, n: nat, y: C): real
    requires y in f && y in g.counts && g.counts[y] > 0 && n > 0
  {
    samplingRate * f[y] / ((g.counts[y] as real) / (n as real))
  }

  /**
   Because the pivot maximises `f[k] / g[k]`, the ratio is at most one, and
   it is exactly one for the pivot itself.
   */
  lemma LikelihoodRatioAtMostOne<C(!new)>(f: map<C, real>, g: Counter<C>, y: C)
    requires g.Valid() && DesiredCovers(f, g) && y in g.counts
    ensures |g.order| > 0
    ensures var p := Pivot(g, UnderScores(f, g));
      LikelihoodRatio(f[y], g.counts[y], f[p], g.counts[p]) <= 1.0
    ensures Pivot(g, UnderScores(f, g)) == y ==>
      LikelihoodRatio(f[y], g.counts[y], f[y], g.counts[y]) == 1.0
  {
    var s := UnderScores(f, g);
    var p := Pivot(g, s);
    assert s[y] <= s[p];
    RatioAtMostOne(f[y], g.counts[y], f[p], g.counts[p]);
  }

  /**
   A class that has just become the under-sampler's pivot is never fitted:
   its ratio is exactly one, which is not below one.
   */
  lemma NewPivotNotFitted<C(!new)>(f: map<C, real>, g: Counter<C>, y: C, u: real)
    requires g.Valid() && DesiredCovers(f, g) && y in g.counts
    requires |g.order| > 0 && Pivot(g, UnderScores(f, g)) == y
    ensures !UnderAccepts(f, g, y, y, u)
  {
    LikelihoodRatioAtMostOne(f, g, y);
  }

  /**
   Because the pivot maximises `g[k] / f[k]`, the rate is at least one, and
   it is exactly one for the pivot itself.
   */
  lemma OverRateAtLeastOne<C(!new)>(f: map<C, real>, g: Counter<C>, y: C)
    requires g.Valid() && DesiredCovers(f, g) && y in g.counts
    ensures |g.order| > 0
    ensures var p := Pivot(g, OverScores(f, g));
      OverRate(f[y], g.counts[y], f[p], g.counts[p]) >= 1.0
    ensures Pivot(g, OverScores(f, g)) == y ==>
      OverRate(f[y], g.counts[y], f[y], g.counts[y]) == 1.0
  {
    var s := OverScores(f, g);
    var p := Pivot(g, s);
    assert s[y] <= s[p];
    RateAtLeastOne(f[y], g.counts[y], f[p], g.counts[p]);
  }

  /** The mixed sampler's rate is `sampling_rate * f[y] * n / g[y]`. */
  lemma SamplingRateIsScaledRatio<C(!new)>(samplingRate: real, f: map<C, real>, g: Counter<C>, n: nat, y: C)
    requires y in f && y in g.counts && g.counts[y] > 0 && n > 0
    ensures SamplingRate(samplingRate, f, g, n, y) == samplingRate * f[y] * (n as real) / (g.counts[y] as real)
  {
    var a, b, c := samplingRate * f[y], g.counts[y] as real, n as real;
    assert a / (b / c) == a * c / b;
  }

  /** `fy / (M * gy) <= 1` when `M = fp / gp` is at least `fy / gy`; equality when both are one class. */
  lemma RatioAtMostOne(fy: real, gy: nat, fp: real, gp: nat)
    requires fy > 0.0 && gy > 0 && fp > 0.0 && gp > 0
    requires fy / (gy as real) <= fp / (gp as real)
    ensures LikelihoodRatio(fy, gy, fp, gp) <= 1.0
    ensures fy == fp && gy == gp ==> LikelihoodRatio(fy, gy, fp, gp) == 1.0
  {
    var m, gr := fp / (gp as real), gy as real;
    assert fy <= m * gr by {
      assert fy / gr * gr == fy;
    }
    assert m * gr > 0.0;
  }

  /** `M * fy / gy >= 1` when `M = gp / fp` is at least `gy / fy`; equality when both are one class. */
  lemma RateAtLeastOne(fy: real, gy: nat, fp: real, gp: nat)
    requires fy > 0.0 && gy > 0 && fp > 0.0 && gp > 0
    requires (gy as real) / fy <= (gp as real) / fp
    ensures OverRate(fy, gy, fp, gp) >= 1.0
    ensures fy == fp && gy == gp ==> OverRate(fy, gy, fp, gp) == 1.0
  {
    var m, gr := (gp as real) / fp, gy as real;
    assert gr <= m * fy by {
      assert gr / fy * fy == gr;
    }
  }

  // ---------------------------------------------------------------------
  // The samplers

  /** Random under-sampling: discrete rejection sampling. */
  class RandomUnderSampler<X, C(==,!new)> {
    const classifier: Classifier<X, C>
    const desiredDist: map<C, real>
    var actualDist: Counter<C>
    var pivot: Option<C>

    ghost predicate Valid()
      reads this
    {
      && actualDist.Valid()
      && (forall c :: c in desiredDist ==> desiredDist[c] > 0.0)
      && DesiredCovers(desiredDist, actualDist)
      && (pivot.Some? ==> pivot.value in actualDist.counts)
    }

    constructor (classifier: Classifier<X, C>, desiredDist: map<C, real>)
      requires forall c :: c in desiredDist ==> desiredDist[c] > 0.0
      ensures Valid()
      ensures this.classifier == classifier && this.desiredDist == desiredDist
      ensures actualDist == Empty() && pivot == None
    {
      this.classifier := classifier;
      this.desiredDist := desiredDist;
      actualDist := Empty();
      pivot := None;
    }

    /**
     `fit_one(x, y)`: count `y`; if `y` is the pivot, fit once and stop;
     otherwise recompute the pivot and fit once exactly when the ratio is
     below one and the uniform draw `u` falls below it.
     */
    method FitOne(x: X, y: C, u: real) returns (self: RandomUnderSampler<X, C>)
      requires Valid() && y in desiredDist
      modifies this, classifier
      ensures Valid() && self == this
      ensures actualDist == old(actualDist).Increment(y)
      ensures |actualDist.order| > 0
      ensures old(pivot) == Some(y) ==>
        && pivot == old(pivot)
        && classifier.fits == old(classifier.fits) + [(x, y)]
      ensures old(pivot) != Some(y) ==>
        && pivot == Some(Pivot(actualDist, UnderScores(desiredDist, actualDist)))
        && classifier.fits == old(classifier.fits) +
             if UnderAccepts(desiredDist, actualDist, pivot.value, y, u) then [(x, y)] else []
    {
      var g := actualDist.Increment(y);
      assert y in g.order;
      actualDist := g;
      if pivot == Some(y) {
        classifier.FitOne(x, y);
        return this;
      }
      var p := Pivot(g, UnderScores(desiredDist, g));
      pivot := Some(p);
      if UnderAccepts(desiredDist, g, p, y, u) {
        classifier.FitOne(x, y);
      }
      self := this;
    }
  }

  /** Random over-sampling: discrete reverse rejection sampling. */
  class RandomOverSampler<X, C(==,!new)> {
    const classifier: Classifier<X, C>
    const desiredDist: map<C, real>
    var actualDist: Counter<C>
    var pivot: Option<C>

    ghost predicate Valid()
      reads this
    {
      && actualDist.Valid()
      && (forall c :: c in desiredDist ==> desiredDist[c] > 0.0)
      && DesiredCovers(desiredDist, actualDist)
      && (pivot.Some? ==> pivot.value in actualDist.counts)
    }

    constructor (classifier: Classifier<X, C>, desiredDist: map<C, real>)
      requires forall c :: c in desiredDist ==> desiredDist[c] > 0.0
      ensures Valid()
      ensures this.classifier == classifier && this.desiredDist == desiredDist
      ensures actualDist == Empty() && pivot == None
    {
      this.classifier := classifier;
      this.desiredDist := desiredDist;
      actualDist := Empty();
      pivot := None;
    }

    /**
     `fit_one(x, y)`: count `y`; if `y` is the pivot, fit once and stop;
     otherwise recompute the pivot and fit as many times as the Poisson
     draw for the rate.
     */
    method FitOne(x: X, y: C, poisson: real -> nat) returns (self: RandomOverSampler<X, C>)
      requires Valid() && y in desiredDist
      modifies this, classifier
      ensures Valid() && self == this
      ensures actualDist == old(actualDist).Increment(y)
      ensures |actualDist.order| > 0
      ensures old(pivot) == Some(y) ==>
        && pivot == old(pivot)
        && classifier.fits == old(classifier.fits) + [(x, y)]
      ensures old(pivot) != Some(y) ==>
        && pivot == Some(Pivot(actualDist, OverScores(desiredDist, actualDist)))
        && classifier.fits == old(classifier.fits) +
             Repeat((x, y), poisson(OverRate(desiredDist[y], actualDist.counts[y],
                                            desiredDist[pivot.value], actualDist.counts[pivot.value])))
    {
      var g := actualDist.Increment(y);
      assert y in g.order;
      actualDist := g;
      if pivot == Some(y) {
        classifier.FitOne(x, y);
        return this;
      }
      var p := Pivot(g, OverScores(desiredDist, g));
      pivot := Some(p);
      var draws := poisson(OverRate(desiredDist[y], g.counts[y], desiredDist[p], g.counts[p]));
      classifier.FitRepeatedly(x, y, draws);
      self := this;
    }
  }

  /** Random sampling that mixes under- and over-sampling. */
  class RandomSampler<X, C(==,!new)> {
    const classifier: Classifier<X, C>
    const desiredDist: map<C, real>
    const samplingRate: real
    var actualDist: Counter<C>
    var n: nat

    /** `_n` is the number of samples counted so far. */
    ghost predicate Valid()
      reads this
    {
      actualDist.Valid() && n == actualDist.Total()
    }

    constructor (classifier: Classifier<X, C>, desiredDist: map<C, real>, samplingRate: real)
      ensures Valid()
      ensures this.classifier == classifier && this.desiredDist == desiredDist
      ensures this.samplingRate == samplingRate
      ensures actualDist == Empty() && n == 0
    {
      this.classifier := classifier;
      this.desiredDist := desiredDist;
      this.samplingRate := samplingRate;
      actualDist := Empty();
      n := 0;
    }

    /** `fit_one(x, y)`: count `y`, then fit as many times as the Poisson draw for the rate. */
    method FitOne(x: X, y: C, poisson: real -> nat) returns (self: RandomSampler<X, C>)
      requires Valid() && y in desiredDist
      modifies this, classifier
      ensures Valid() && self == this
      ensures actualDist == old(actualDist).Increment(y)
      ensures n == old(n) + 1
      ensures classifier.fits == old(classifier.fits) +
        Repeat((x, y), poisson(SamplingRate(samplingRate, desiredDist, actualDist, n, y)))
    {
      IncrementTotal(actualDist, y);
      var g, m := actualDist.Increment(y), n + 1;
      var draws := poisson(SamplingRate(samplingRate, desiredDist, g, m, y));
      classifier.FitRepeatedly(x, y, draws);
      actualDist, n := g, m;
      self := this;
    }
  }
}
