/**
 * Sample weights for a weighted sampler that draws class-balanced batches:
 * a histogram of the labels, a per-class weight N / count[c], and a weight
 * per sample equal to the weight of its class.
 *
 * Labels are Python integers used to index Python lists of length nclasses,
 * so a label l is accepted when -nclasses <= l < nclasses (a negative one
 * counts from the end) and raises IndexError otherwise. Floating point
 * division is modelled by exact division of reals.
 */
module BalancedWeights {
  import opened Wrappers

  datatype WeightsError =
    | IndexError(sample: nat)    // count[label] with the label of this sample out of range
    | ZeroDivision(emptyClass: nat)   // N / float(count[c]) with an empty class

  /** The list slot a Python index selects in a list of length n, if any. */
  function ListSlot(i: int, n: nat): (r: Option<nat>)
    ensures r.Some? <==> -(n as int) <= i < n
    ensures r.Some? ==> r.value < n && (r.value == i || r.value == i + n)
  {
    if 0 <= i < n then Some(i) else if -(n as int) <= i < 0 then Some(i + n) else None
  }

  predicate ValidLabel(l: int, n: nat) { ListSlot(l, n).Some? }

  predicate AllValid(labels: seq<int>, n: nat) {
    forall i | 0 <= i < |labels| :: ValidLabel(labels[i], n)
  }

  /** The class a valid label falls into. */
  function ClassOf(l: int, n: nat): nat
    requires ValidLabel(l, n)
  {
    ListSlot(l, n).value
  }

  /** The number of samples whose label selects class c. */
  function Count(labels: seq<int>, n: nat, c: nat): nat
  {
    if labels == [] then 0
    else
      var last := labels[|labels| - 1];
      Count(labels[..|labels| - 1], n, c) + (if ListSlot(last, n) == Some(c) then 1 else 0)
  }

  /** count[0] + ... + count[k-1]. */
  function SumCounts(labels: seq<int>, n: nat, k: nat): nat
  {
    if k == 0 then 0 else SumCounts(labels, n, k - 1) + Count(labels, n, k - 1)
  }

  /** The sum of xs[0] + ... + xs[k-1] of a list of counters. */
  function SumPrefix(xs: seq<nat>, k: nat): nat
    requires k <= |xs|
  {
    if k == 0 then 0 else SumPrefix(xs, k - 1) + xs[k - 1]
  }

  /** The total weight carried by the samples of class c. */
  function ClassMass(labels: seq<int>, weights: seq<real>, n: nat, c: nat): real
    requires |weights| == |labels|
  {
    if labels == [] then 0.0
    else
      var k := |labels| - 1;
      ClassMass(labels[..k], weights[..k], n, c)
        + (if ListSlot(labels[k], n) == Some(c) then weights[k] else 0.0)
  }

  /** Appending one sample adds one to the count of its class only. */
  lemma CountSnoc(labels: seq<int>, x: int, n: nat, c: nat)
    ensures Count(labels + [x], n, c) == Count(labels, n, c) + (if ListSlot(x, n) == Some(c) then 1 else 0)
  {
    assert (labels + [x])[..|labels|] == labels;
  }

  /** Appending one valid sample raises the sum over classes below k by one exactly when its class is below k. */
  lemma {:induction false} SumCountsSnoc(labels: seq<int>, x: int, n: nat, k: nat)
    requires ValidLabel(x, n) && k <= n
    ensures SumCounts(labels + [x], n, k) == SumCounts(labels, n, k) + (if ClassOf(x, n) < k then 1 else 0)
  {
    if k > 0 {
      SumCountsSnoc(labels, x, n, k - 1);
      CountSnoc(labels, x, n, k - 1);
    }
  }

  /** Every sample lies in exactly one class: the histogram sums to the number of samples. */
  lemma {:induction false} CountsSumToSize(labels: seq<int>, n: nat)
    requires AllValid(labels, n)
    ensures SumCounts(labels, n, n) == |labels|
  {
    if labels == [] {
      SumCountsOfEmpty(n, n);
    } else {
      var k := |labels| - 1;
      assert labels[..k] + [labels[k]] == labels;
      CountsSumToSize(labels[..k], n);
      SumCountsSnoc(labels[..k], labels[k], n, n);
    }
  }

  /** The base case of CountsSumToSize: with no samples, every prefix of the histogram sums to 0. */
  lemma {:induction false} SumCountsOfEmpty(n: nat, k: nat)
    ensures SumCounts([], n, k) == 0
  {
    if k > 0 { SumCountsOfEmpty(n, k - 1); }
  }

  /** w added k times. */
  function Repeat(k: nat, w: real): real {
    if k == 0 then 0.0 else Repeat(k - 1, w) + w
  }

  lemma {:induction false} RepeatIsProduct(k: nat, w: real)
    ensures Repeat(k, w) == (k as real) * w
  {
    if k > 0 { RepeatIsProduct(k - 1, w); }
  }

  /** k shares of a / k make a. */
  lemma RepeatShare(k: nat, a: real)
    requires k > 0
    ensures Repeat(k, a / (k as real)) == a
  {
    RepeatIsProduct(k, a / (k as real));
  }

  /** Each class's samples carry count[c] times the weight of class c. */
  lemma {:induction false} ClassMassIsCountTimesWeight(labels: seq<int>, weights: seq<real>, perClass: seq<real>, n: nat, c: nat)
    requires |weights| == |labels| && |perClass| == n && c < n
    requires AllValid(labels, n)
    requires forall i | 0 <= i < |labels| :: weights[i] == perClass[ClassOf(labels[i], n)]
    ensures ClassMass(labels, weights, n, c) == Repeat(Count(labels, n, c), perClass[c])
  {
    if labels != [] {
      var k := |labels| - 1;
      ClassMassIsCountTimesWeight(labels[..k], weights[..k], perClass, n, c);
    }
  }

  /**
   * The purpose of the weights: with weight N / count[c] on every sample of
   * class c, every class carries the same total weight N, the number of samples.
   */
  lemma BalancedMass(labels: seq<int>, weights: seq<real>, perClass: seq<real>, n: nat, c: nat)
    requires |weights| == |labels| && |perClass| == n && c < n
    requires AllValid(labels, n) && Count(labels, n, c) > 0
    requires forall i | 0 <= i < |labels| :: weights[i] == perClass[ClassOf(labels[i], n)]
    requires perClass[c] == (|labels| as real) / (Count(labels, n, c) as real)
    ensures ClassMass(labels, weights, n, c) == |labels| as real
  {
    ClassMassIsCountTimesWeight(labels, weights, perClass, n, c);
    RepeatShare(Count(labels, n, c), |labels| as real);
  }

  /**
   * The histogram loop of make_weights_for_balanced_classes: count[label] += 1
   * for every sample, raising IndexError at the first label out of range.
   */
  method CountClasses(labels: seq<int>, nclasses: nat) returns (r: Result<seq<nat>, WeightsError>)
    ensures r.Err? ==> r.error.IndexError?
    ensures r.Err? ==>
      var s := r.error.sample;
      s < |labels| && !ValidLabel(labels[s], nclasses) && AllValid(labels[..s], nclasses)
    ensures r.Ok? <==> AllValid(labels, nclasses)
    ensures r.Ok? ==> |r.value| == nclasses && forall c | 0 <= c < nclasses :: r.value[c] == Count(labels, nclasses, c)
  {
    var count := new nat[nclasses](_ => 0);
    var k := 0;
    while k < |labels|
      invariant 0 <= k <= |labels|
      invariant AllValid(labels[..k], nclasses)
      invariant forall c | 0 <= c < nclasses :: count[c] == Count(labels[..k], nclasses, c)
    {
      var slot := ListSlot(labels[k], nclasses);
      if slot.None? {
        return Err(IndexError(k));
      }
      assert labels[..k + 1] == labels[..k] + [labels[k]];
      forall c | 0 <= c < nclasses ensures Count(labels[..k + 1], nclasses, c) == Count(labels[..k], nclasses, c) + (if slot == Some(c) then 1 else 0) {
        CountSnoc(labels[..k], labels[k], nclasses, c);
      }
      count[slot.value] := count[slot.value] + 1;
      k := k + 1;
    }
    assert labels[..|labels|] == labels;
    r := Ok(count[..]);
  }

  /**
   * weight_per_class[i] = N / float(count[i]) for every class in turn,
   * raising ZeroDivisionError at the first empty class.
   */
  method ClassWeights(counts: seq<nat>, total: real) returns (r: Result<seq<real>, WeightsError>)
    ensures r.Err? ==> r.error.ZeroDivision?
    ensures r.Err? ==>
      var c := r.error.emptyClass;
      c < |counts| && counts[c] == 0 && forall d | 0 <= d < c :: counts[d] > 0
    ensures r.Ok? <==> forall c | 0 <= c < |counts| :: counts[c] > 0
    ensures r.Ok? ==>
      |r.value| == |counts| && forall c | 0 <= c < |counts| :: r.value[c] == total / (counts[c] as real)
  {
    var perClass := new real[|counts|](_ => 0.0);
    var i := 0;
    while i < |counts|
      invariant 0 <= i <= |counts|
      invariant forall c | 0 <= c < i :: counts[c] > 0 && perClass[c] == total / (counts[c] as real)
    {
      if counts[i] == 0 {
        return Err(ZeroDivision(i));
      }
      perClass[i] := total / (counts[i] as real);
      i := i + 1;
    }
    r := Ok(perClass[..]);
  }

  /** weight[idx] = weight_per_class[label of sample idx], for every sample in turn. */
  method SampleWeights(labels: seq<int>, nclasses: nat, perClass: seq<real>) returns (weight: seq<real>)
    requires AllValid(labels, nclasses) && |perClass| == nclasses
    ensures |weight| == |labels|
    ensures forall i | 0 <= i < |labels| :: weight[i] == perClass[ClassOf(labels[i], nclasses)]
  {
    var w := new real[|labels|](_ => 0.0);
    var idx := 0;
    while idx < |labels|
      invariant 0 <= idx <= |labels|
      invariant forall m | 0 <= m < idx :: w[m] == perClass[ClassOf(labels[m], nclasses)]
    {
      w[idx] := perClass[ListSlot(labels[idx], nclasses).value];
      idx := idx + 1;
    }
    weight := w[..];
  }

  /**
   * make_weights_for_balanced_classes(images, nclasses) with images given by
   * their labels. Returns (weight, weight_per_class) or the exception raised.
   */
  method MakeWeightsForBalancedClasses(labels: seq<int>, nclasses: nat)
    returns (r: Result<(seq<real>, seq<real>), WeightsError>)
    // the first sample whose label does not index the histogram raises IndexError
    ensures r.Err? && r.error.IndexError? ==>
      var s := r.error.sample;
      s < |labels| && !ValidLabel(labels[s], nclasses) && AllValid(labels[..s], nclasses)
    // otherwise the first empty class raises ZeroDivisionError
    ensures r.Err? && r.error.ZeroDivision? ==>
      var c := r.error.emptyClass;
      AllValid(labels, nclasses) && c < nclasses && Count(labels, nclasses, c) == 0
      && forall d | 0 <= d < c :: Count(labels, nclasses, d) > 0
    // and when neither happens the weights are returned
    ensures r.Ok? <==> AllValid(labels, nclasses) && forall c | 0 <= c < nclasses :: Count(labels, nclasses, c) > 0
    ensures r.Ok? ==>
      var (weight, perClass) := r.value;
      |perClass| == nclasses && |weight| == |labels|
      && (forall c | 0 <= c < nclasses :: perClass[c] == (|labels| as real) / (Count(labels, nclasses, c) as real))
      && (forall i | 0 <= i < |labels| :: weight[i] == perClass[ClassOf(labels[i], nclasses)])
      && (forall c | 0 <= c < nclasses :: ClassMass(labels, weight, nclasses, c) == |labels| as real)
  {
    var histogram := CountClasses(labels, nclasses);
    if histogram.Err? {
      return Err(histogram.error);
    }
    var counts := histogram.value;

    // N = float(sum(count))
    var total := 0;
    var j := 0;
    while j < nclasses
      invariant 0 <= j <= nclasses
      invariant total == SumPrefix(counts, j)
    {
      total := total + counts[j];
      j := j + 1;
    }
    SumPrefixIsSumCounts(counts, labels, nclasses, nclasses);
    CountsSumToSize(labels, nclasses);
    var N := total as real;
    assert N == |labels| as real;

    var perClassOrError := ClassWeights(counts, N);
    if perClassOrError.Err? {
      return Err(perClassOrError.error);
    }
    var perClass := perClassOrError.value;
    var weight := SampleWeights(labels, nclasses, perClass);
    forall c | 0 <= c < nclasses ensures ClassMass(labels, weight, nclasses, c) == |labels| as real {
      BalancedMass(labels, weight, perClass, nclasses, c);
    }
    r := Ok((weight, perClass));
  }

  lemma {:induction false} SumPrefixIsSumCounts(xs: seq<nat>, labels: seq<int>, n: nat, k: nat)
    requires |xs| == n && k <= n
    requires forall c | 0 <= c < n :: xs[c] == Count(labels, n, c)
    ensures SumPrefix(xs, k) == SumCounts(labels, n, k)
  {
    if k > 0 { SumPrefixIsSumCounts(xs, labels, n, k - 1); }
  }
}
