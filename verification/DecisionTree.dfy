/** The decision tree: how it is built from training data, what it predicts, and its printed form. */
module DecisionTrees {

  datatype Tree = Leaf(val: int) | Node(feature: int, split: real, left: Tree, right: Tree)

  /** The features of one instance. */
  type Instance = int -> real

  function PredictBy(t: Tree, x: Instance): int {
    match t
    case Leaf(val) => val
    case Node(f, s, l, r) => if x(f) <= s then PredictBy(l, x) else PredictBy(r, x)
  }

  /** The turns an instance takes from the root to its leaf. */
  function Path(t: Tree, x: Instance): seq<bool> {
    match t
    case Leaf(_) => []
    case Node(f, s, l, r) => if x(f) <= s then [true] + Path(l, x) else [false] + Path(r, x)
  }

  function Height(t: Tree): nat {
    match t
    case Leaf(_) => 0
    case Node(_, _, l, r) => 1 + if Height(l) < Height(r) then Height(r) else Height(l)
  }

  /** Every path takes its features from `fs`, and none of them twice. */
  predicate UsesOnce(t: Tree, fs: set<int>) {
    match t
    case Leaf(_) => true
    case Node(f, _, l, r) => f in fs && UsesOnce(l, fs - {f}) && UsesOnce(r, fs - {f})
  }

  // ---- Counting labels ----

  function Count(labels: seq<int>, data: seq<nat>, l: int): nat
    requires forall i :: 0 <= i < |data| ==> data[i] < |labels|
  {
    if data == [] then 0
    else Count(labels, data[..|data| - 1], l) + if labels[data[|data| - 1]] == l then 1 else 0
  }

  predicate InRange(labels: seq<int>, data: seq<nat>) {
    forall i :: 0 <= i < |data| ==> data[i] < |labels|
  }

  /** The positions of the data that carry a label. */
  ghost function Carriers(labels: seq<int>, data: seq<nat>, l: int): set<nat>
    requires InRange(labels, data)
  {
    set i: nat | i < |data| && labels[data[i]] == l
  }

  lemma {:induction false} CountIs(labels: seq<int>, data: seq<nat>, l: int)
    requires InRange(labels, data)
    ensures Count(labels, data, l) == |Carriers(labels, data, l)|
  {
    if data == [] {
      assert Carriers(labels, data, l) == {};
    } else {
      var n := |data| - 1;
      CountIs(labels, data[..n], l);
      var before := Carriers(labels, data[..n], l);
      assert Carriers(labels, data, l) == if labels[data[n]] == l then before + {n} else before;
    }
  }

  /** The lowest-numbered of the labels that occur most often. */
  ghost predicate IsMajority(labels: seq<int>, data: seq<nat>, numLabels: nat, l: int)
    requires InRange(labels, data)
  {
    && (forall k :: 0 <= k < numLabels ==> Count(labels, data, k) <= Count(labels, data, l))
    && (forall k :: 0 <= k < numLabels && k < l ==> Count(labels, data, k) < Count(labels, data, l))
  }

  /** The instances at or below the split, or those above it, in order. */
  function Part(xs: seq<Instance>, data: seq<nat>, f: int, s: real, below: bool): (part: seq<nat>)
    requires forall i :: 0 <= i < |data| ==> data[i] < |xs|
    ensures |part| <= |data| && forall i :: 0 <= i < |part| ==> part[i] in data
  {
    if data == [] then []
    else
      var n := |data| - 1;
      Part(xs, data[..n], f, s, below) + if (xs[data[n]](f) <= s) == below then [data[n]] else []
  }

  /** Every instance is on its side of the split, as often as it was given. */
  lemma {:induction false} PartCounts(xs: seq<Instance>, data: seq<nat>, f: int, s: real, below: bool, k: nat)
    requires forall i :: 0 <= i < |data| ==> data[i] < |xs|
    requires k < |xs|
    ensures multiset(Part(xs, data, f, s, below))[k] == if (xs[k](f) <= s) == below then multiset(data)[k] else 0
  {
    if data != [] {
      var n := |data| - 1;
      PartCounts(xs, data[..n], f, s, below, k);
      CountMore(data[..n], data[n], k);
      assert data == data[..n] + [data[n]];
      CountMore(Part(xs, data[..n], f, s, below), data[n], k);
    }
  }

  lemma CountMore(s: seq<nat>, x: nat, k: nat)
    ensures multiset(s + [x])[k] == multiset(s)[k] + if x == k then 1 else 0
  {
  }

  /** The instances that end in the leaf of instance x. */
  function SameLeaf(t: Tree, xs: seq<Instance>, data: seq<nat>, x: Instance): (part: seq<nat>)
    requires forall i :: 0 <= i < |data| ==> data[i] < |xs|
    ensures forall i :: 0 <= i < |part| ==> part[i] in data
  {
    if data == [] then []
    else
      var n := |data| - 1;
      SameLeaf(t, xs, data[..n], x) + if Path(t, xs[data[n]]) == Path(t, x) then [data[n]] else []
  }

  /** Every leaf has the majority label of the training data that reaches it, or if none does, of the data that
      reaches the node above it. */
  ghost predicate Fits(t: Tree, xs: seq<Instance>, labels: seq<int>, numLabels: nat, above: seq<nat>, data: seq<nat>)
    requires |xs| == |labels| && InRange(labels, above) && InRange(labels, data)
  {
    match t
    case Leaf(l) => IsMajority(labels, if data == [] then above else data, numLabels, l)
    case Node(f, s, l, r) =>
      && Fits(l, xs, labels, numLabels, data, Part(xs, data, f, s, true))
      && Fits(r, xs, labels, numLabels, data, Part(xs, data, f, s, false))
  }

  lemma PathSide(f: int, s: real, l: Tree, r: Tree, y: Instance, x: Instance)
    ensures var child := if x(f) <= s then l else r;
      Path(Node(f, s, l, r), y) == Path(Node(f, s, l, r), x) <==>
      ((y(f) <= s) == (x(f) <= s) && Path(child, y) == Path(child, x))
  {
    var p, q := Path(Node(f, s, l, r), y), Path(Node(f, s, l, r), x);
    var child := if x(f) <= s then l else r;
    assert q == [x(f) <= s] + Path(child, x) && q[0] == (x(f) <= s) && q[1..] == Path(child, x);
    if (y(f) <= s) == (x(f) <= s) {
      assert p == [y(f) <= s] + Path(child, y) && p[1..] == Path(child, y);
    } else {
      assert p[0] == (y(f) <= s);
    }
  }

  /** Behind a split, the instances in the leaf of x are those of them on its side. */
  lemma {:induction false} SameLeafSide(f: int, s: real, l: Tree, r: Tree, xs: seq<Instance>, data: seq<nat>,
                                        x: Instance)
    requires forall i :: 0 <= i < |data| ==> data[i] < |xs|
    ensures SameLeaf(Node(f, s, l, r), xs, data, x)
         == SameLeaf(if x(f) <= s then l else r, xs, Part(xs, data, f, s, x(f) <= s), x)
  {
    hide Path;
    if data != [] {
      var n := |data| - 1;
      SameLeafSide(f, s, l, r, xs, data[..n], x);
      PathSide(f, s, l, r, xs[data[n]], x);
      var side := Part(xs, data[..n], f, s, x(f) <= s);
      assert (side + [data[n]])[..|side|] == side;
      var part := Part(xs, data, f, s, x(f) <= s);
      assert part == if (xs[data[n]](f) <= s) == (x(f) <= s) then side + [data[n]] else side;
    }
  }

  lemma {:induction false} PartHas(xs: seq<Instance>, data: seq<nat>, f: int, s: real, i: nat)
    requires (forall i :: 0 <= i < |data| ==> data[i] < |xs|) && i < |data|
    ensures data[i] in Part(xs, data, f, s, xs[data[i]](f) <= s)
  {
    if i < |data| - 1 {
      PartHas(xs, data[..|data| - 1], f, s, i);
    }
  }

  lemma {:induction false} SameLeafOfLeaf(l: int, xs: seq<Instance>, data: seq<nat>, x: Instance)
    requires forall i :: 0 <= i < |data| ==> data[i] < |xs|
    ensures SameLeaf(Leaf(l), xs, data, x) == data
  {
    if data != [] {
      SameLeafOfLeaf(l, xs, data[..|data| - 1], x);
    }
  }

  /** For a training instance, a tree that fits predicts the lowest-numbered majority label of the training
      instances in its leaf. */
  lemma {:induction false} PredictsMajority(t: Tree, xs: seq<Instance>, labels: seq<int>, numLabels: nat,
                                            above: seq<nat>, data: seq<nat>, i: nat)
    requires |xs| == |labels| && InRange(labels, above) && InRange(labels, data)
    requires Fits(t, xs, labels, numLabels, above, data) && i < |data|
    ensures InRange(labels, SameLeaf(t, xs, data, xs[data[i]]))
    ensures IsMajority(labels, SameLeaf(t, xs, data, xs[data[i]]), numLabels, PredictBy(t, xs[data[i]]))
  {
    var x := xs[data[i]];
    match t
    case Leaf(l) => SameLeafOfLeaf(l, xs, data, x);
    case Node(f, s, l, r) =>
      var side := Part(xs, data, f, s, x(f) <= s);
      SameLeafSide(f, s, l, r, xs, data, x);
      PartHas(xs, data, f, s, i);
      var k :| 0 <= k < |side| && side[k] == data[i];
      PredictsMajority(if x(f) <= s then l else r, xs, labels, numLabels, data, side, k);
  }

  // ---- Nodes ----

  class TreeNode {
    var featureId: int
    var splitVal: real
    var isLeaf: bool
    var leafVal: int
    var left: TreeNode?
    var right: TreeNode?
    ghost var repr: set<TreeNode>
    ghost var tree: Tree

    /** A node that is neither split nor a leaf yet. */
    ghost predicate Blank() reads this {
      !isLeaf && left == null && right == null && repr == {this}
    }

    /** The root of a finished tree. */
    ghost predicate Valid()
      reads this, repr
      decreases repr
    {
      && this in repr
      && (isLeaf ==> left == null && right == null && featureId == -1 && tree == Leaf(leafVal))
      && (!isLeaf ==>
            && left != null && right != null && left in repr && right in repr
            && left.repr < repr && right.repr < repr && this !in left.repr && this !in right.repr
            && left.repr !! right.repr && left.Valid() && right.Valid()
            && tree == Node(featureId, splitVal, left.tree, right.tree))
    }

    constructor ()
      ensures Blank()
    {
      featureId, splitVal, isLeaf, leafVal, left, right := 0, 0.0, false, 0, null, null;
      repr, tree := {this}, Leaf(0);
    }

    /** Splits a node that is not a leaf; children that it had are dropped. */
    method Split(feature: int, split: real)
      requires !isLeaf
      modifies this
      ensures !isLeaf && left != null && right != null && fresh(left) && fresh(right) && left != right
      ensures left.Blank() && right.Blank() && featureId == feature && splitVal == split && repr == {this}
    {
      left := new TreeNode();
      right := new TreeNode();
      splitVal := split;
      featureId := feature;
      repr := {this};
    }

    /** Declares this node a leaf, or gives a leaf another value. */
    method SetLeafVal(val: int)
      requires left == null && right == null
      modifies this
      ensures Valid() && tree == Leaf(val) && repr == {this}
    {
      isLeaf := true;
      leafVal := val;
      featureId := -1;
      splitVal := -1.0;
      repr := {this};
      tree := Leaf(val);
    }

    /** Bookkeeping when both children are finished. */
    ghost method Finish()
      requires !isLeaf && left != null && right != null && left.Valid() && right.Valid()
      requires this !in left.repr && this !in right.repr && left.repr !! right.repr
      modifies this`repr, this`tree
      ensures Valid() && repr == {this} + left.repr + right.repr
      ensures tree == Node(featureId, splitVal, left.tree, right.tree)
    {
      repr := {this} + left.repr + right.repr;
      tree := Node(featureId, splitVal, left.tree, right.tree);
    }

    function Predict(x: Instance): (val: int)
      requires Valid()
      reads this, repr
      decreases repr
      ensures val == PredictBy(tree, x)
      ensures isLeaf ==> val == leafVal
      ensures !isLeaf && x(featureId) <= splitVal ==> val == left.Predict(x)
      ensures !isLeaf && splitVal < x(featureId) ==> val == right.Predict(x)
    {
      if isLeaf then leafVal
      else if x(featureId) <= splitVal then left.Predict(x)
      else right.Predict(x)
    }
  }

  // ---- Building ----

  function FeatureSet(fs: seq<int>): set<int> {
    set f | f in fs
  }

  predicate Distinct(fs: seq<int>) {
    forall i, j :: 0 <= i < j < |fs| ==> fs[i] != fs[j]
  }

  /** Any order of the same elements. */
  method Shuffle<T(==)>(s: seq<T>) returns (r: seq<T>)
    ensures multiset(r) == multiset(s)
  {
    assert multiset(s) == multiset(s);
    r :| multiset(r) == multiset(s);
  }

  lemma ShuffledDistinct(s: seq<int>, r: seq<int>)
    requires Distinct(s) && multiset(r) == multiset(s)
    ensures Distinct(r) && FeatureSet(r) == FeatureSet(s) && |r| == |s|
  {
    assert |multiset(r)| == |r| && |multiset(s)| == |s|;
    forall f ensures f in r <==> f in s {
      assert f in multiset(r) <==> f in multiset(s);
    }
    forall i, j | 0 <= i < j < |r| ensures r[i] != r[j] {
      if r[i] == r[j] {
        Twice(r, i, j);
        AtMostOnce(s, r[i]);
      }
    }
  }

  lemma Twice(r: seq<int>, i: nat, j: nat)
    requires i < j < |r| && r[i] == r[j]
    ensures multiset(r)[r[i]] >= 2
  {
    assert r == r[..i] + [r[i]] + r[i + 1..j] + [r[j]] + r[j + 1..];
  }

  lemma {:induction false} AtMostOnce(s: seq<int>, f: int)
    requires Distinct(s)
    ensures multiset(s)[f] <= 1
  {
    if s != [] {
      var n := |s| - 1;
      AtMostOnce(s[..n], f);
      assert s == s[..n] + [s[n]];
      assert f == s[n] ==> f !in s[..n];
    }
  }

  /** Overwrites an element with the last, and drops the last. */
  function WithoutAt(fs: seq<int>, i: nat): (r: seq<int>)
    requires i < |fs|
    ensures |r| == |fs| - 1
  {
    fs[i := fs[|fs| - 1]][..|fs| - 1]
  }

  lemma WithoutAtIs(fs: seq<int>, i: nat)
    requires i < |fs| && Distinct(fs)
    ensures Distinct(WithoutAt(fs, i)) && FeatureSet(WithoutAt(fs, i)) == FeatureSet(fs) - {fs[i]}
  {
    var r, n := WithoutAt(fs, i), |fs| - 1;
    forall f | f in fs && f != fs[i] ensures f in r {
      var k :| 0 <= k < |fs| && fs[k] == f;
      assert r[if k == n then i else k] == f;
    }
  }

  class DecisionTree {
    const features: seq<Instance>
    const labels: seq<int>
    const numLabels: nat
    const maxDepth: int
    const numDataSubsample: int
    const numFeaturesSubsample: int

    constructor (features: seq<Instance>, labels: seq<int>, numLabels: nat, maxDepth: int, numDataSubsample: int,
                 numFeaturesSubsample: int)
      ensures this.features == features && this.labels == labels && this.numLabels == numLabels
      ensures this.maxDepth == maxDepth && this.numDataSubsample == numDataSubsample
      ensures this.numFeaturesSubsample == numFeaturesSubsample
    {
      this.features, this.labels, this.numLabels, this.maxDepth := features, labels, numLabels, maxDepth;
      this.numDataSubsample, this.numFeaturesSubsample := numDataSubsample, numFeaturesSubsample;
    }

    ghost predicate Valid() {
      |features| == |labels| && forall i :: 0 <= i < |labels| ==> 0 <= labels[i] < numLabels
    }

    method ComputeLeafVal(data: seq<nat>) returns (maxLabel: nat)
      requires Valid() && InRange(labels, data)
      ensures IsMajority(labels, data, numLabels, maxLabel)
    {
      var counts := new nat[numLabels](i => 0);
      var i := 0;
      while i < |data|
        invariant i <= |data| && InRange(labels, data[..i])
        invariant forall l :: 0 <= l < numLabels ==> counts[l] == Count(labels, data[..i], l)
      {
        var label_ := labels[data[i]];
        assert data[..i + 1][..i] == data[..i];
        counts[label_] := counts[label_] + 1;
        i := i + 1;
      }
      assert data[..i] == data;
      maxLabel := 0;
      if numLabels == 0 {
        return;
      }
      i := 1;
      while i < numLabels
        invariant 1 <= i <= numLabels && maxLabel < i
        invariant forall k :: 0 <= k < i ==> counts[k] <= counts[maxLabel]
        invariant forall k :: 0 <= k < maxLabel ==> counts[k] < counts[maxLabel]
      {
        if counts[i] > counts[maxLabel] {
          maxLabel := i;
        }
        i := i + 1;
      }
    }

    method AllSameLabels(data: seq<nat>) returns (same: bool)
      requires InRange(labels, data)
      ensures same <==> forall i, j :: 0 <= i < |data| && 0 <= j < |data| ==> labels[data[i]] == labels[data[j]]
    {
      if |data| == 0 {
        return true;
      }
      var first := labels[data[0]];
      var i := 1;
      while i < |data|
        invariant 1 <= i <= |data|
        invariant forall j :: 0 <= j < i ==> labels[data[j]] == first
      {
        if first != labels[data[i]] {
          return false;
        }
        i := i + 1;
      }
      return true;
    }

    method PartitionData(feature: int, split: real, data: seq<nat>) returns (left: seq<nat>, right: seq<nat>)
      requires Valid() && InRange(labels, data)
      ensures left == Part(features, data, feature, split, true) && right == Part(features, data, feature, split, false)
      ensures forall k :: 0 <= k < |features| ==>
        && multiset(left)[k] == (if features[k](feature) <= split then multiset(data)[k] else 0)
        && multiset(right)[k] == (if features[k](feature) <= split then 0 else multiset(data)[k])
    {
      left, right := [], [];
      var i := 0;
      while i < |data|
        invariant i <= |data| && InRange(labels, data[..i])
        invariant left == Part(features, data[..i], feature, split, true)
        invariant right == Part(features, data[..i], feature, split, false)
      {
        assert data[..i + 1][..i] == data[..i];
        if features[data[i]](feature) <= split {
          left := left + [data[i]];
        } else {
          right := right + [data[i]];
        }
        i := i + 1;
      }
      assert data[..i] == data;
      forall k | 0 <= k < |features|
        ensures multiset(left)[k] == if features[k](feature) <= split then multiset(data)[k] else 0
        ensures multiset(right)[k] == if features[k](feature) <= split then 0 else multiset(data)[k]
      {
        PartCounts(features, data, feature, split, true, k);
        PartCounts(features, data, feature, split, false, k);
      }
    }

    /** Any of the features and any threshold. */
    method FindSplit(data: seq<nat>, subFeatures: seq<int>) returns (idx: nat, feature: int, split: real)
      requires subFeatures != []
      ensures idx < |subFeatures| && feature == subFeatures[idx]
    {
      idx :| idx < |subFeatures|;
      feature := subFeatures[idx];
      split := *;
    }

    /** The data that the root is built from: a random part of it, if there is more than should be used. */
    method Subsample(data: seq<nat>) returns (sub: seq<nat>)
      requires InRange(labels, data)
      ensures InRange(labels, sub) && multiset(sub) <= multiset(data)
      ensures sub == data || (0 < numDataSubsample < |data| && |sub| == numDataSubsample)
    {
      sub := data;
      if numDataSubsample > 0 && |data| > numDataSubsample {
        var copy := Shuffle(data);
        assert |multiset(copy)| == |copy| && |multiset(data)| == |data|;
        assert copy == copy[..numDataSubsample] + copy[numDataSubsample..];
        sub := copy[..numDataSubsample];
        forall i | 0 <= i < |sub| ensures sub[i] < |labels| {
          assert sub[i] in multiset(sub) && sub[i] in multiset(data);
        }
      }
    }

    /** The features to choose from, which come first in a copy of all that are left. */
    method Candidates(available: seq<int>) returns (copy: seq<int>, sub: seq<int>)
      requires Distinct(available) && available != []
      ensures Distinct(copy) && FeatureSet(copy) == FeatureSet(available) && |copy| == |available|
      ensures sub != [] && sub <= copy
    {
      copy := available;
      sub := available;
      if numFeaturesSubsample > 0 && |available| > numFeaturesSubsample {
        copy := Shuffle(available);
        ShuffledDistinct(available, copy);
        sub := copy[..numFeaturesSubsample];
      }
    }

    /** What building below a node promises: `sample` is the data that the tree was fitted to. */
    ghost predicate Built(depth: int, fs: seq<int>, above: seq<nat>, sample: seq<nat>, t: Tree)
      requires Valid() && InRange(labels, above) && InRange(labels, sample)
    {
      && Fits(t, features, labels, numLabels, above, sample) && UsesOnce(t, FeatureSet(fs)) && Height(t) <= |fs|
      && (depth <= maxDepth - 1 ==> depth + Height(t) <= maxDepth - 1)
    }

    /** No more splits: the depth limit, no feature left, or nothing to tell apart. */
    ghost predicate Stops(depth: int, fs: seq<int>, data: seq<nat>)
      requires InRange(labels, data)
    {
      || depth == maxDepth - 1 || fs == []
      || forall i, j :: 0 <= i < |data| && 0 <= j < |data| ==> labels[data[i]] == labels[data[j]]
    }

    lemma BuiltLeaf(depth: int, fs: seq<int>, above: seq<nat>, sample: seq<nat>, val: int)
      requires Valid() && InRange(labels, above) && InRange(labels, sample)
      requires IsMajority(labels, if sample == [] then above else sample, numLabels, val)
      ensures Built(depth, fs, above, sample, Leaf(val))
    {
    }

    lemma BuiltBelow(depth: int, fs: seq<int>, above: seq<nat>, sample: seq<nat>, t: Tree)
      requires Valid() && InRange(labels, above) && InRange(labels, sample) && sample != []
      requires Built(depth, fs, sample, sample, t)
      ensures Built(depth, fs, above, sample, t)
    {
    }

    /** One side of a split: a leaf if no data is there, and a subtree otherwise. */
    method BuildSide(depth: int, sub: seq<nat>, part: seq<nat>, fs: seq<int>, child: TreeNode)
      requires Valid() && InRange(labels, sub) && InRange(labels, part) && Distinct(fs) && child.Blank()
      modifies child
      ensures child.Valid() && fresh(child.repr - {child})
      ensures Built(depth, fs, sub, part, child.tree)
      ensures child.tree.Leaf? <==> Stops(depth, fs, part)
      decreases |fs|, 2
    {
      if |part| == 0 {
        var val := ComputeLeafVal(sub);
        child.SetLeafVal(val);
        BuiltLeaf(depth, fs, sub, part, val);
      } else {
        var node, sample := RecursiveBuild(depth, part, fs, child);
        BuiltBelow(depth, fs, sub, part, node.tree);
      }
    }

    /** A split, the data on both sides of it, and the features that are left. */
    method ChooseSplit(sub: seq<nat>, available: seq<int>)
      returns (feature: int, split: real, left: seq<nat>, right: seq<nat>, rest: seq<int>)
      requires Valid() && InRange(labels, sub) && Distinct(available) && available != []
      ensures left == Part(features, sub, feature, split, true) && right == Part(features, sub, feature, split, false)
      ensures InRange(labels, left) && InRange(labels, right) && Distinct(rest) && |rest| == |available| - 1
      ensures feature in available && FeatureSet(rest) == FeatureSet(available) - {feature}
    {
      var copy, candidates := Candidates(available);
      var idx;
      idx, feature, split := FindSplit(sub, candidates);
      left, right := PartitionData(feature, split, sub);
      PartInRange(features, sub, feature, split);
      WithoutAtIs(copy, idx);
      rest := WithoutAt(copy, idx);
      assert feature in FeatureSet(copy);
    }

    lemma SplitBuilt(depth: int, fs: seq<int>, sample: seq<nat>, feature: int, split: real, rest: seq<int>,
                     l: Tree, r: Tree)
      requires Valid() && InRange(labels, sample) && depth != maxDepth - 1 && feature in fs
      requires FeatureSet(rest) == FeatureSet(fs) - {feature} && |rest| == |fs| - 1
      requires Built(depth + 1, rest, sample, Part(features, sample, feature, split, true), l)
      requires Built(depth + 1, rest, sample, Part(features, sample, feature, split, false), r)
      ensures Built(depth, fs, sample, sample, Node(feature, split, l, r))
    {
    }

    /** Splits a node and builds both sides; the feature of the split is not available below it. */
    method BuildSplit(depth: int, sub: seq<nat>, available: seq<int>, node: TreeNode)
      requires Valid() && InRange(labels, sub) && Distinct(available) && available != [] && depth != maxDepth - 1
      requires node.Blank()
      modifies node
      ensures node.Valid() && fresh(node.repr - {node}) && node.tree.Node?
      ensures Built(depth, available, sub, sub, node.tree)
      decreases |available|, 0
    {
      hide Built, Distinct, Stops, InRange, Part, WithoutAt, FeatureSet;
      var feature, split, left, right, rest := ChooseSplit(sub, available);
      node.Split(feature, split);
      BuildSide(depth + 1, sub, left, rest, node.left);
      BuildSide(depth + 1, sub, right, rest, node.right);
      SplitBuilt(depth, available, sub, feature, split, rest, node.left.tree, node.right.tree);
      ghost var below := node.left.repr + node.right.repr;
      assert fresh(below);
      node.Finish();
      assert node.repr - {node} == below;
    }

    /** Builds the tree below a node, or a new tree. */
    method RecursiveBuild(depth: int, data: seq<nat>, available: seq<int>, curr: TreeNode?)
      returns (node: TreeNode, ghost sample: seq<nat>)
      requires Valid() && InRange(labels, data) && Distinct(available) && (curr != null ==> curr.Blank())
      modifies if curr == null then {} else {curr}
      ensures node.Valid() && (if curr == null then fresh(node.repr) else node == curr && fresh(node.repr - {curr}))
      ensures InRange(labels, sample) && Built(depth, available, sample, sample, node.tree)
      ensures node.tree.Leaf? <==>
        || depth == maxDepth - 1 || available == []
        || forall i, j :: 0 <= i < |data| && 0 <= j < |data| ==> labels[data[i]] == labels[data[j]]
      ensures sample == data || (curr == null && 0 < numDataSubsample < |data| && multiset(sample) <= multiset(data))
      decreases |available|, 1
    {
      hide Built;
      var sub := data;
      if curr == null {
        node := new TreeNode();
        sub := Subsample(data);
      } else {
        node := curr;
      }
      var same := AllSameLabels(data);
      if depth == maxDepth - 1 || |available| == 0 || same {
        var val := ComputeLeafVal(data);
        node.SetLeafVal(val);
        sample := data;
        BuiltLeaf(depth, available, data, data, val);
        return;
      }
      sample := sub;
      BuildSplit(depth, sub, available, node);
    }

    /** Builds from all data and all features. If the data was not subsampled, every training instance is predicted the
        lowest-numbered majority label of the training instances that end in its leaf. */
    method Init(dim: nat) returns (root: TreeNode)
      requires Valid()
      ensures root.Valid() && fresh(root.repr)
      ensures UsesOnce(root.tree, FeatureSet(UpTo(dim))) && Height(root.tree) <= dim
      ensures 0 < maxDepth ==> Height(root.tree) <= maxDepth - 1
      ensures numDataSubsample <= 0 || |features| <= numDataSubsample ==>
        forall i :: 0 <= i < |features| ==>
          PredictedWell(root.tree, UpTo(|features|), features[i], root.Predict(features[i]))
    {
      var dataIdx := UpTo(|features|);
      var featureIds := UpTo(dim);
      ghost var sample;
      root, sample := RecursiveBuild(0, dataIdx, featureIds, null);
      if numDataSubsample <= 0 || |features| <= numDataSubsample {
        forall i | 0 <= i < |features|
          ensures PredictedWell(root.tree, UpTo(|features|), features[i], root.Predict(features[i]))
        {
          PredictsMajority(root.tree, features, labels, numLabels, dataIdx, dataIdx, i);
        }
      }
    }

    ghost predicate PredictedWell(t: Tree, data: seq<nat>, x: Instance, val: int)
      requires Valid() && InRange(labels, data)
    {
      && InRange(labels, SameLeaf(t, features, data, x))
      && IsMajority(labels, SameLeaf(t, features, data, x), numLabels, val)
    }
  }

  function UpTo(n: nat): (s: seq<nat>)
    ensures |s| == n && forall i :: 0 <= i < n ==> s[i] == i
  {
    seq(n, i => i)
  }

  lemma PartInRange(xs: seq<Instance>, data: seq<nat>, f: int, s: real)
    requires forall i :: 0 <= i < |data| ==> data[i] < |xs|
    ensures forall below, i :: 0 <= i < |Part(xs, data, f, s, below)| ==> Part(xs, data, f, s, below)[i] < |xs|
  {
    forall below, i | 0 <= i < |Part(xs, data, f, s, below)| ensures Part(xs, data, f, s, below)[i] < |xs| {
      assert Part(xs, data, f, s, below)[i] in data;
    }
  }

  // ---- The printed form ----

  /** A feature id and a value; -1 and a label for a leaf. */
  datatype Value = Label(val: int) | Cut(split: real)
  type Token = (int, Value)

  /** In preorder. A node that splits on -1 is printed as a leaf, with whatever leaf value it happens to have. */
  function Print(t: Tree): seq<Token> {
    match t
    case Leaf(val) => [(-1, Label(val))]
    case Node(f, s, l, r) => if f == -1 then [(-1, Label(0))] else [(f, Cut(s))] + Print(l) + Print(r)
  }

  datatype Parsed = Failed | Parsed(tree: Tree, rest: seq<Token>)

  /** Reads one tree from the front. */
  function Parse(ts: seq<Token>): (p: Parsed)
    ensures p.Parsed? ==> |p.rest| < |ts|
    decreases |ts|
  {
    if ts == [] then Failed
    else if ts[0].0 == -1 then
      if ts[0].1.Label? then Parsed(Leaf(ts[0].1.val), ts[1..]) else Failed
    else if ts[0].1.Cut? then
      var l := Parse(ts[1..]);
      if l.Failed? then Failed
      else
        var r := Parse(l.rest);
        if r.Failed? then Failed else Parsed(Node(ts[0].0, ts[0].1.split, l.tree, r.tree), r.rest)
    else Failed
  }

  /** No node splits on the id that marks leaves. */
  predicate Printable(t: Tree) {
    match t
    case Leaf(_) => true
    case Node(f, _, l, r) => f != -1 && Printable(l) && Printable(r)
  }

  lemma {:induction false} ParsePrint(t: Tree, rest: seq<Token>)
    requires Printable(t)
    ensures Parse(Print(t) + rest) == Parsed(t, rest)
  {
    match t
    case Leaf(val) =>
    case Node(f, s, l, r) =>
      assert Print(t) + rest == [(f, Cut(s))] + (Print(l) + (Print(r) + rest));
      ParsePrint(l, Print(r) + rest);
      ParsePrint(r, rest);
  }

  lemma {:induction false} ParsedPrintable(ts: seq<Token>)
    requires Parse(ts).Parsed?
    ensures Printable(Parse(ts).tree)
    decreases |ts|
  {
    if ts[0].0 != -1 {
      ParsedPrintable(ts[1..]);
      ParsedPrintable(Parse(ts[1..]).rest);
    }
  }

  /** Printing and reading gives the tree back exactly if no node splits on feature -1. */
  lemma RoundTripIff(t: Tree)
    ensures Parse(Print(t)) == Parsed(t, []) <==> Printable(t)
  {
    if Printable(t) {
      ParsePrint(t, []);
      assert Print(t) + [] == Print(t);
    } else if Parse(Print(t)) == Parsed(t, []) {
      ParsedPrintable(Print(t));
    }
  }

  /** A tree that was built from numbered features can be printed and read back. */
  lemma {:induction false} BuiltPrintable(t: Tree, fs: set<int>)
    requires UsesOnce(t, fs) && -1 !in fs
    ensures Printable(t)
  {
    match t
    case Leaf(_) =>
    case Node(f, _, l, r) =>
      BuiltPrintable(l, fs - {f});
      BuiltPrintable(r, fs - {f});
  }

  /** Appends the printed form of a subtree. */
  method Serialize(p: TreeNode, out: seq<Token>) returns (r: seq<Token>)
    requires p.Valid()
    ensures Printable(p.tree) ==> r == out + Print(p.tree)
    decreases p.repr
  {
    if p.featureId != -1 {
      r := out + [(p.featureId, Cut(p.splitVal))];
      r := Serialize(p.left, r);
      r := Serialize(p.right, r);
    } else {
      r := out + [(p.featureId, Label(p.leafVal))];
    }
  }

  /** Reads one subtree into a node that is still blank. */
  method Deserialize(p: TreeNode, tokens: seq<Token>) returns (ok: bool, rest: seq<Token>)
    requires p.Blank()
    modifies p
    ensures ok <==> Parse(tokens).Parsed?
    ensures ok ==> p.Valid() && fresh(p.repr - {p}) && Parse(tokens) == Parsed(p.tree, rest)
    decreases |tokens|
  {
    if tokens == [] {
      return false, [];
    }
    var token := tokens[0];
    if token.0 == -1 {
      if token.1.Cut? {
        return false, [];
      }
      p.SetLeafVal(token.1.val);
      return true, tokens[1..];
    }
    if token.1.Label? {
      return false, [];
    }
    p.Split(token.0, token.1.split);
    ok, rest := Deserialize(p.left, tokens[1..]);
    if !ok {
      return;
    }
    ok, rest := Deserialize(p.right, rest);
    if !ok {
      return;
    }
    ghost var below := p.left.repr + p.right.repr;
    assert fresh(below);
    p.Finish();
    assert p.repr - {p} == below;
  }
}
