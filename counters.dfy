/**
 A model of Python's `collections.Counter` as the samplers use it: a map from
 class to count whose keys remember the order in which they were first
 inserted (dictionaries iterate in insertion order, which decides ties in
 `max`).
 */
module Counters {

  /** `order` lists the keys in insertion order; `counts` holds their counts. */
  datatype Counter<C(!new)> = Counter(order: seq<C>, counts: map<C, nat>) {

    /** Keys are listed once each, in `order` and `counts` alike, and every stored count is positive. */
    ghost predicate Valid() {
      && (forall i, j :: 0 <= i < j < |order| ==> order[i] != order[j])
      && (forall i :: 0 <= i < |order| ==> order[i] in counts)
      && (forall c :: c in counts ==> c in order)
      && (forall c :: c in counts ==> counts[c] >= 1)
    }

    /** `counter[c]`: a missing key reads as zero. */
    function Get(c: C): nat {
      if c in counts then counts[c] else 0
    }

    /** `counter[c] += 1`. */
    function Increment(c: C): (r: Counter<C>)
      requires Valid()
      ensures r.Valid()
      ensures r.Get(c) == Get(c) + 1
      ensures forall d :: d != c ==> r.Get(d) == Get(d)
      ensures r.counts.Keys == counts.Keys + {c}
      ensures r.order == if c in counts then order else order + [c]
    {
      if c in counts then Counter(order, counts[c := counts[c] + 1])
      else Counter(order + [c], counts[c := 1])
    }

    /** The sum of all counts. */
    function Total(): nat
      requires Valid()
    {
      SumAlong(order, counts)
    }
  }

  /** The empty counter, `collections.Counter()`. */
  function Empty<C(!new)>(): (r: Counter<C>)
    ensures r.Valid() && r.counts == map[] && r.Total() == 0
  {
    Counter([], map[])
  }

  /** Sum of `counts[k]` for the keys `ks`, in order. */
  function SumAlong<C>(ks: seq<C>, counts: map<C, nat>): nat
    requires forall i :: 0 <= i < |ks| ==> ks[i] in counts
  {
    if ks == [] then 0 else SumAlong(ks[..|ks| - 1], counts) + counts[ks[|ks| - 1]]
  }

  /** Changing the count of a key that `ks` does not list leaves the sum alone. */
  lemma {:induction false} SumAlongOther<C>(ks: seq<C>, counts: map<C, nat>, c: C, v: nat)
    requires forall i :: 0 <= i < |ks| ==> ks[i] in counts && ks[i] != c
    ensures SumAlong(ks, counts[c := v]) == SumAlong(ks, counts)
  {
    if ks != [] {
      SumAlongOther(ks[..|ks| - 1], counts, c, v);
    }
  }

  /** Raising the count of one key listed exactly once in `ks` raises the sum by one. */
  lemma {:induction false} SumAlongBump<C>(ks: seq<C>, counts: map<C, nat>, c: C)
    requires forall i :: 0 <= i < |ks| ==> ks[i] in counts
    requires forall i, j :: 0 <= i < j < |ks| ==> ks[i] != ks[j]
    requires c in ks
    ensures SumAlong(ks, counts[c := counts[c] + 1]) == SumAlong(ks, counts) + 1
  {
    var last := |ks| - 1;
    var init := ks[..last];
    if ks[last] == c {
      SumAlongOther(init, counts, c, counts[c] + 1);
    } else {
      assert c in init by {
        var i :| 0 <= i < |ks| && ks[i] == c;
        assert i < last && init[i] == c;
      }
      SumAlongBump(init, counts, c);
    }
  }

  /** Each `Increment` adds exactly one to the total. */
  lemma IncrementTotal<C(!new)>(g: Counter<C>, c: C)
    requires g.Valid()
    ensures g.Increment(c).Total() == g.Total() + 1
  {
    var r := g.Increment(c);
    if c in g.counts {
      SumAlongBump(g.order, g.counts, c);
    } else {
      assert r.order[..|r.order| - 1] == g.order;
      SumAlongOther(g.order, g.counts, c, 1);
    }
  }
}
