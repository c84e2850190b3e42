/** Pairwise distances between named (units, trials, t) datasets: every
    dataset is paired with every other, and for each pair a distance is
    computed at each timepoint, optionally after shuffling the trials of
    the two datasets between them. */
module DistancePlots {
  import opened Common
  import opened Tensor

  /** A (units, trials, t) dataset. */
  type Dataset = a: NdArray | Rank3(a) witness NdArray([0, 0, 0], (u: nat, j: nat, t: nat) => 0.0)

  /** For every pool size n, a permutation of range(n): what np.random.shuffle
      does to the pooled trials. */
  type Shuffler = f: nat -> seq<nat> | forall n: nat :: IsPermutation(f(n), n) witness Iota

  // ---------------------------------------------------------------------
  // _pairwise_iter

  /** The results of pairing the item (name, data) with others[0..k), in
      order, skipping items of the same name. */
  function PairsWith<V, R>(name: string, data: V, others: seq<(string, V)>, k: nat,
                           func: (string, V, string, V) -> R): seq<R>
    requires k <= |others|
  {
    if k == 0 then []
    else PairsWith(name, data, others, k - 1, func)
         + (if others[k - 1].0 == name then [] else [func(name, data, others[k - 1].0, others[k - 1].1)])
  }

  /** What _pairwise_iter returns: the last item paired with every earlier
      one, then the same for the items before it. */
  function Pairwise<V, R>(items: seq<(string, V)>, func: (string, V, string, V) -> R): seq<R> {
    if items == [] then []
    else
      var last := items[|items| - 1];
      var rest := items[..|items| - 1];
      PairsWith(last.0, last.1, rest, |rest|, func) + Pairwise(rest, func)
  }

  /** _pairwise_iter: pops items off a copy of the list, last first, and calls
      func on each popped item and every item still in the list, in list
      order, skipping equal names. */
  method PairwiseIter<V, R>(items: seq<(string, V)>, func: (string, V, string, V) -> R)
    returns (results: seq<R>)
    ensures results == Pairwise(items, func)
  {
    results := [];
    var dataPairs := items;
    for i := 0 to |items|
      invariant |dataPairs| == |items| - i && dataPairs == items[..|items| - i]
      invariant results + Pairwise(dataPairs, func) == Pairwise(items, func)
    {
      var (name, data) := dataPairs[|dataPairs| - 1];
      ghost var before := results;
      ghost var popped := dataPairs;
      dataPairs := dataPairs[..|dataPairs| - 1];
      for k := 0 to |dataPairs|
        invariant results == before + PairsWith(name, data, dataPairs, k, func)
      {
        var (name1, data1) := dataPairs[k];
        if name == name1 {
          continue;
        }
        results := results + [func(name, data, name1, data1)];
      }
      assert Pairwise(popped, func) == PairsWith(name, data, dataPairs, |dataPairs|, func) + Pairwise(dataPairs, func);
      assert items[..|items| - (i + 1)] == popped[..|popped| - 1];
    }
  }

  /** 0 + 1 + ... + (n - 1): the number of unordered pairs of n items. */
  function Tri(n: nat): nat {
    if n == 0 then 0 else Tri(n - 1) + (n - 1)
  }

  lemma {:induction false} TriClosedForm(n: nat)
    ensures 2 * Tri(n) == n * (n - 1)
  {
    if n > 0 {
      TriClosedForm(n - 1);
      assert n * (n - 1) == (n - 1) * (n - 2) + 2 * (n - 1);
    }
  }

  lemma {:induction false} TriMonotone(a: nat, b: nat)
    requires a <= b
    ensures Tri(a) <= Tri(b)
    decreases b
  {
    if a < b {
      TriMonotone(a, b - 1);
    }
  }

  /** No two items share a name: the keys of a dictionary. */
  predicate DistinctNames<V>(items: seq<(string, V)>) {
    forall i, j :: 0 <= i < j < |items| ==> items[i].0 != items[j].0
  }

  /** An item whose name is not among the others is paired with all of them:
      result m is the call with others[m]. */
  lemma {:induction false} PairsWithAll<V, R>(name: string, data: V, others: seq<(string, V)>, k: nat,
                                              func: (string, V, string, V) -> R)
    requires k <= |others|
    requires forall j :: 0 <= j < |others| ==> others[j].0 != name
    ensures |PairsWith(name, data, others, k, func)| == k
    ensures forall m :: 0 <= m < k ==>
      PairsWith(name, data, others, k, func)[m] == func(name, data, others[m].0, others[m].1)
  {
    if k > 0 {
      PairsWithAll(name, data, others, k - 1, func);
    }
  }

  /** With distinct names, _pairwise_iter makes exactly n (n - 1) / 2 calls. */
  lemma {:induction false} PairwiseCount<V, R>(items: seq<(string, V)>, func: (string, V, string, V) -> R)
    requires DistinctNames(items)
    ensures |Pairwise(items, func)| == Tri(|items|)
    ensures 2 * |Pairwise(items, func)| == |items| * (|items| - 1)
  {
    TriClosedForm(|items|);
    if items != [] {
      var last := items[|items| - 1];
      var rest := items[..|items| - 1];
      PairwiseCount(rest, func);
      PairsWithAll(last.0, last.1, rest, |rest|, func);
    }
  }

  /** With distinct names, the call for items i and j (j < i) comes at
      position Tri(n) - Tri(i + 1) + j: items are taken from last to first,
      each against the earlier items in list order. */
  lemma {:induction false} PairwiseOrder<V, R>(items: seq<(string, V)>, func: (string, V, string, V) -> R,
                                               i: nat, j: nat)
    requires DistinctNames(items) && j < i < |items|
    ensures Tri(i + 1) <= Tri(|items|)
    ensures Tri(|items|) - Tri(i + 1) + j < |Pairwise(items, func)|
    ensures Pairwise(items, func)[Tri(|items|) - Tri(i + 1) + j] == func(items[i].0, items[i].1, items[j].0, items[j].1)
  {
    var n := |items|;
    var last := items[n - 1];
    var rest := items[..n - 1];
    PairwiseCount(items, func);
    PairsWithAll(last.0, last.1, rest, |rest|, func);
    TriMonotone(i + 1, n);
    var front := PairsWith(last.0, last.1, rest, |rest|, func);
    if i == n - 1 {
      assert Pairwise(items, func)[j] == front[j];
    } else {
      PairwiseOrder(rest, func, i, j);
      var p := Tri(n - 1) - Tri(i + 1) + j;
      assert Pairwise(items, func)[(n - 1) + p] == Pairwise(rest, func)[p];
    }
  }

  /** Every call _pairwise_iter makes is for a later item and an earlier
      item of different names. */
  lemma {:induction false} PairwiseSkipsEqualNames<V, R>(items: seq<(string, V)>, func: (string, V, string, V) -> R,
                                                         p: nat)
    returns (i: nat, j: nat)
    requires p < |Pairwise(items, func)|
    ensures j < i < |items| && items[i].0 != items[j].0
    ensures Pairwise(items, func)[p] == func(items[i].0, items[i].1, items[j].0, items[j].1)
  {
    var n := |items|;
    var last := items[n - 1];
    var rest := items[..n - 1];
    var front := PairsWith(last.0, last.1, rest, |rest|, func);
    if p < |front| {
      i := n - 1;
      j := PairsWithSource(last.0, last.1, rest, |rest|, func, p);
    } else {
      assert Pairwise(items, func)[p] == Pairwise(rest, func)[p - |front|];
      i, j := PairwiseSkipsEqualNames(rest, func, p - |front|);
    }
  }

  /** Every result of PairsWith is the call with a differently named item. */
  lemma {:induction false} PairsWithSource<V, R>(name: string, data: V, others: seq<(string, V)>, k: nat,
                                                 func: (string, V, string, V) -> R, m: nat)
    returns (j: nat)
    requires k <= |others| && m < |PairsWith(name, data, others, k, func)|
    ensures j < k && others[j].0 != name
    ensures PairsWith(name, data, others, k, func)[m] == func(name, data, others[j].0, others[j].1)
  {
    var prev := PairsWith(name, data, others, k - 1, func);
    if m < |prev| {
      j := PairsWithSource(name, data, others, k - 1, func, m);
    } else {
      j := k - 1;
    }
  }

  // ---------------------------------------------------------------------
  // _calc_dists

  /** The two datasets a pair's distances are taken between: the pair itself,
      or with `shuffled` the pooled trials permuted and split back at the
      first dataset's trial count. */
  function Resplit(shuffled: bool, shuffler: Shuffler, data: Dataset, data1: Dataset): (NdArray, NdArray) {
    if shuffled then ShuffleSplit(data, data1, shuffler(NumTrials(data) + NumTrials(data1)))
    else (data, data1)
  }

  /** The distance at timepoint t: the metric of the two (trials, units)
      blocks a[:, :, t].swapaxes(0, 1) and b[:, :, t].swapaxes(0, 1). */
  function DistAt(metric: (Matrix, Matrix) -> real, a: NdArray, b: NdArray, t: nat): real
    requires Rank3(a) && Rank3(b)
  {
    metric(Transpose(TimeSlice(a, t)), Transpose(TimeSlice(b, t)))
  }

  /** One pair's distance series: name "name-name1", and the distance at
      each of the first numSamples timepoints of the (possibly shuffled)
      pair. Pooling datasets whose units or time axes differ is a
      ValueError; a timepoint past either time axis is an IndexError. */
  function DistPair(metric: (Matrix, Matrix) -> real, numSamples: nat, shuffled: bool, shuffler: Shuffler,
                    name: string, data: Dataset, name1: string, data1: Dataset)
    : Result<(string, seq<real>)>
  {
    if shuffled && !Concatenable(data, data1) then Err(ConcatShapeMismatch)
    else
      var ab := Resplit(shuffled, shuffler, data, data1);
      if numSamples > NumTimes(ab.0) || numSamples > NumTimes(ab.1) then Err(TimeIndexOutOfRange)
      else Ok((name + "-" + name1, seq(numSamples, (t: int) requires 0 <= t => DistAt(metric, ab.0, ab.1, t))))
  }

  /** dist_func inside _calc_dists, with the per-timepoint loop. */
  method DistFunc(metric: (Matrix, Matrix) -> real, numSamples: nat, shuffled: bool, shuffler: Shuffler,
                  name: string, data: Dataset, name1: string, data1: Dataset)
    returns (r: Result<(string, seq<real>)>)
    ensures r == DistPair(metric, numSamples, shuffled, shuffler, name, data, name1, data1)
  {
    var distData: seq<real> := [];
    var distName := name + "-" + name1;
    var a: NdArray := data;
    var b: NdArray := data1;
    if shuffled {
      if !Concatenable(data, data1) {
        return Err(ConcatShapeMismatch);
      }
      var perm := shuffler(NumTrials(data) + NumTrials(data1));
      var shuf := ConcatTrials(data, data1);
      a := SelectTrials(shuf, perm[..NumTrials(data)]);
      b := SelectTrials(shuf, perm[NumTrials(data)..]);
    }
    assert (a, b) == Resplit(shuffled, shuffler, data, data1);
    for t := 0 to numSamples
      invariant |distData| == t
      invariant forall k :: 0 <= k < t ==> distData[k] == DistAt(metric, a, b, k)
      invariant t > 0 ==> t <= NumTimes(a) && t <= NumTimes(b)
    {
      if t >= NumTimes(a) || t >= NumTimes(b) {
        return Err(TimeIndexOutOfRange);
      }
      distData := distData + [DistAt(metric, a, b, t)];
    }
    ghost var expected := seq(numSamples, (t: int) requires 0 <= t => DistAt(metric, a, b, t));
    assert distData == expected;
    return Ok((distName, distData));
  }

  /** A pair fails exactly when its datasets cannot be pooled (shuffled
      only) or a requested timepoint lies past a time axis; otherwise it
      yields numSamples distances under the name "name-name1", the t-th
      taken at timepoint t of the (possibly shuffled) pair. */
  lemma DistPairOkIff(metric: (Matrix, Matrix) -> real, numSamples: nat, shuffled: bool, shuffler: Shuffler,
                      name: string, data: Dataset, name1: string, data1: Dataset)
    ensures var r := DistPair(metric, numSamples, shuffled, shuffler, name, data, name1, data1);
      && (r.Ok? <==> (shuffled ==> Concatenable(data, data1))
                     && numSamples <= NumTimes(data) && numSamples <= NumTimes(data1))
      && (r.Err? ==> r.error == (if shuffled && !Concatenable(data, data1) then ConcatShapeMismatch
                                 else TimeIndexOutOfRange))
      && (r.Ok? ==> r.value.0 == name + "-" + name1 && |r.value.1| == numSamples
                    && forall t :: 0 <= t < numSamples ==>
                         r.value.1[t] == DistAt(metric, Resplit(shuffled, shuffler, data, data1).0,
                                                Resplit(shuffled, shuffler, data, data1).1, t))
  {
  }

  /** The shuffled split keeps each dataset's shape, so every block keeps
      its (trials, units) size; between them the two halves hold each pooled
      trial once, trial j of the first half being pooled trial perm[j]. */
  lemma ResplitKeepsTrials(shuffler: Shuffler, data: Dataset, data1: Dataset, t: nat)
    requires Concatenable(data, data1)
    ensures var perm := shuffler(NumTrials(data) + NumTrials(data1));
      var (a, b) := Resplit(true, shuffler, data, data1);
      && a.shape == data.shape && b.shape == data1.shape
      && Transpose(TimeSlice(a, t)).rows == NumTrials(data) && Transpose(TimeSlice(a, t)).cols == NumUnits(data)
      && Transpose(TimeSlice(b, t)).rows == NumTrials(data1) && Transpose(TimeSlice(b, t)).cols == NumUnits(data1)
      && multiset(perm[..NumTrials(data)]) + multiset(perm[NumTrials(data)..])
         == multiset(Iota(NumTrials(data) + NumTrials(data1)))
      && forall u: nat, j: nat :: j < NumTrials(data) ==>
           Transpose(TimeSlice(a, t)).at(j, u) == Get(ConcatTrials(data, data1), u, perm[j], t)
  {
    var perm := shuffler(NumTrials(data) + NumTrials(data1));
    ShuffleSplitIsPermutation(data, data1, perm);
  }

  /** Unshuffled, element (j, u) of the block at t is trial j of unit u of
      the dataset itself. */
  lemma UnshuffledBlocks(metric: (Matrix, Matrix) -> real, shuffler: Shuffler, data: Dataset, data1: Dataset, t: nat)
    ensures Resplit(false, shuffler, data, data1) == (data, data1)
    ensures forall u: nat, j: nat :: Transpose(TimeSlice(data, t)).at(j, u) == Get(data, u, j, t)
  {
  }

  /** The first error among the results, in call order, or all the values. */
  function Collect<T>(rs: seq<Result<T>>): (r: Result<seq<T>>)
    ensures r.Ok? <==> forall i :: 0 <= i < |rs| ==> rs[i].Ok?
    ensures r.Ok? ==> |r.value| == |rs| && forall i :: 0 <= i < |rs| ==> rs[i] == Ok(r.value[i])
  {
    if rs == [] then Ok([])
    else if rs[0].Err? then Err(rs[0].error)
    else
      var tail := Collect(rs[1..]);
      if tail.Err? then Err(tail.error)
      else Ok([rs[0].value] + tail.value)
  }

  /** When some result is an error, Collect reports the earliest one. */
  lemma {:induction false} CollectFirstError<T>(rs: seq<Result<T>>, i: nat)
    requires i < |rs| && rs[i].Err? && forall k :: 0 <= k < i ==> rs[k].Ok?
    ensures Collect(rs) == Err(rs[i].error)
  {
    if i > 0 {
      CollectFirstError(rs[1..], i - 1);
    }
  }

  /** _calc_dists: the distance series of every pair of datasets, in the
      order _pairwise_iter visits them; the first pair that fails stops it. */
  method CalcDists(items: seq<(string, Dataset)>, shuffled: bool, shuffler: Shuffler,
                   metric: (Matrix, Matrix) -> real, numSamples: nat)
    returns (r: Result<seq<(string, seq<real>)>>)
    ensures r == Collect(Pairwise(items,
      (n: string, d: Dataset, n1: string, d1: Dataset) => DistPair(metric, numSamples, shuffled, shuffler, n, d, n1, d1)))
  {
    var distFunc := (n: string, d: Dataset, n1: string, d1: Dataset) =>
      DistPair(metric, numSamples, shuffled, shuffler, n, d, n1, d1);
    var results := PairwiseIter(items, distFunc);
    r := Collect(results);
  }

  /** With distinct dataset names, a successful _calc_dists returns
      n (n - 1) / 2 series; the series at position Tri(n) - Tri(i + 1) + j
      (j < i) is named "<name i>-<name j>" and holds numSamples distances
      between datasets i and j. */
  lemma CalcDistsLayout(items: seq<(string, Dataset)>, shuffled: bool, shuffler: Shuffler,
                        metric: (Matrix, Matrix) -> real, numSamples: nat, i: nat, j: nat)
    requires DistinctNames(items) && j < i < |items|
    requires Collect(Pairwise(items,
      (n: string, d: Dataset, n1: string, d1: Dataset) => DistPair(metric, numSamples, shuffled, shuffler, n, d, n1, d1))).Ok?
    ensures var ds := Collect(Pairwise(items,
      (n: string, d: Dataset, n1: string, d1: Dataset) => DistPair(metric, numSamples, shuffled, shuffler, n, d, n1, d1))).value;
      && 2 * |ds| == |items| * (|items| - 1)
      && Tri(i + 1) <= Tri(|items|)
      && Tri(|items|) - Tri(i + 1) + j < |ds|
      && ds[Tri(|items|) - Tri(i + 1) + j].0 == items[i].0 + "-" + items[j].0
      && |ds[Tri(|items|) - Tri(i + 1) + j].1| == numSamples
  {
    var f := (n: string, d: Dataset, n1: string, d1: Dataset) => DistPair(metric, numSamples, shuffled, shuffler, n, d, n1, d1);
    PairwiseCount(items, f);
    PairwiseOrder(items, f, i, j);
    DistPairOkIff(metric, numSamples, shuffled, shuffler, items[i].0, items[i].1, items[j].0, items[j].1);
  }
}
