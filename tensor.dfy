/** numpy arrays as the analysis code uses them: (units, trials, t) firing-rate
    tensors with their shape and the value at each index, 2-D (rows, columns)
    blocks cut out of them, and the few axis operations the core applies. */
module Tensor {
  import opened Common

  /** A numpy array whose values are read as a (units, trials, t) tensor:
      `at(u, j, t)` is a[u, j, t]. Only indices inside `shape` are
      meaningful; an array of another rank carries its shape, and its
      values are never read. */
  datatype NdArray = NdArray(shape: seq<nat>, at: (nat, nat, nat) -> real)

  /** A 2-D numpy array: `at(r, c)` is m[r, c]. */
  datatype Matrix = Matrix(rows: nat, cols: nat, at: (nat, nat) -> real)

  /** The array is (units, trials, t). */
  predicate Rank3(a: NdArray) { |a.shape| == 3 }

  function NumUnits(a: NdArray): nat requires Rank3(a) { a.shape[0] }
  function NumTrials(a: NdArray): nat requires Rank3(a) { a.shape[1] }
  function NumTimes(a: NdArray): nat requires Rank3(a) { a.shape[2] }

  /** a[u, j, t] */
  function Get(a: NdArray, u: nat, j: nat, t: nat): real { a.at(u, j, t) }

  /** numpy.concatenate([a, b], axis=1) succeeds: the units and time axes agree. */
  predicate Concatenable(a: NdArray, b: NdArray)
    requires Rank3(a) && Rank3(b)
  {
    NumUnits(a) == NumUnits(b) && NumTimes(a) == NumTimes(b)
  }

  /** numpy.concatenate([a, b], axis=1): b's trials follow a's. */
  function ConcatTrials(a: NdArray, b: NdArray): (r: NdArray)
    requires Rank3(a) && Rank3(b)
    ensures Rank3(r) && NumUnits(r) == NumUnits(a) && NumTimes(r) == NumTimes(a)
    ensures NumTrials(r) == NumTrials(a) + NumTrials(b)
  {
    var n := NumTrials(a);
    NdArray([NumUnits(a), n + NumTrials(b), NumTimes(a)],
      (u: nat, j: nat, t: nat) => if j < n then a.at(u, j, t) else b.at(u, j - n, t))
  }

  /** a[:, idxs]: the trials listed in idxs, in that order. */
  function SelectTrials(a: NdArray, idxs: seq<nat>): (r: NdArray)
    requires Rank3(a)
    ensures Rank3(r) && NumUnits(r) == NumUnits(a) && NumTimes(r) == NumTimes(a)
    ensures NumTrials(r) == |idxs|
  {
    NdArray([NumUnits(a), |idxs|, NumTimes(a)],
      (u: nat, j: nat, t: nat) => if j < |idxs| then a.at(u, idxs[j], t) else 0.0)
  }

  /** a[:, :, t]: the (units, trials) block at one timepoint. */
  function TimeSlice(a: NdArray, t: nat): (m: Matrix)
    requires Rank3(a)
    ensures m.rows == NumUnits(a) && m.cols == NumTrials(a)
  {
    Matrix(NumUnits(a), NumTrials(a), (u: nat, j: nat) => a.at(u, j, t))
  }

  /** m.swapaxes(0, 1) */
  function Transpose(m: Matrix): (r: Matrix)
    ensures r.rows == m.cols && r.cols == m.rows
  {
    Matrix(m.cols, m.rows, (r: nat, c: nat) => m.at(c, r))
  }

  /** The length of the Python slice [lo:hi] of an axis of length n: both
      bounds are clipped to n, and crossed bounds give an empty slice. */
  function SliceLen(n: nat, lo: nat, hi: nat): (r: nat)
    ensures r > 0 ==> lo + r <= n && lo + r <= hi
    ensures lo <= hi <= n ==> r == hi - lo
  {
    if Min(hi, n) <= Min(lo, n) then 0 else Min(hi, n) - Min(lo, n)
  }

  /** s[lo:hi] of a 1-D array. */
  function Slice(s: seq<real>, lo: nat, hi: nat): (r: seq<real>)
    ensures |r| == SliceLen(|s|, lo, hi)
    ensures forall k :: 0 <= k < |r| ==> r[k] == s[lo + k]
  {
    if SliceLen(|s|, lo, hi) == 0 then [] else s[lo..lo + SliceLen(|s|, lo, hi)]
  }

  /** a[:, :, lo:hi]: element t of the window is element lo + t of a. */
  function TimeWindow(a: NdArray, lo: nat, hi: nat): (r: NdArray)
    requires Rank3(a)
    ensures Rank3(r) && NumUnits(r) == NumUnits(a) && NumTrials(r) == NumTrials(a)
    ensures NumTimes(r) == SliceLen(NumTimes(a), lo, hi)
  {
    NdArray([NumUnits(a), NumTrials(a), SliceLen(NumTimes(a), lo, hi)],
      (u: nat, j: nat, t: nat) => a.at(u, j, lo + t))
  }

  /** a[u, 0, t] + ... + a[u, n - 1, t] */
  function SumTrials(a: NdArray, u: nat, t: nat, n: nat): real {
    if n == 0 then 0.0 else SumTrials(a, u, t, n - 1) + Get(a, u, n - 1, t)
  }

  /** np.average(a, axis=1): the (units, t) mean over trials. numpy gives NaN
      for an empty trial axis, so at least one trial is required. */
  function AverageTrials(a: NdArray): (m: Matrix)
    requires Rank3(a) && NumTrials(a) > 0
    ensures m.rows == NumUnits(a) && m.cols == NumTimes(a)
  {
    Matrix(NumUnits(a), NumTimes(a),
      (u: nat, t: nat) => SumTrials(a, u, t, NumTrials(a)) / (NumTrials(a) as real))
  }

  /** a - avg[:, None]: the (units, t) average subtracted from every trial. */
  function SubtractAverage(a: NdArray, avg: Matrix): (r: NdArray)
    requires Rank3(a)
    ensures r.shape == a.shape
  {
    NdArray(a.shape, (u: nat, j: nat, t: nat) => a.at(u, j, t) - avg.at(u, t))
  }

  /** Slicing the time axis before summing over trials is summing then
      reading the shifted time. */
  lemma {:induction false} SumTrialsOfWindow(a: NdArray, lo: nat, hi: nat, u: nat, t: nat, n: nat)
    requires Rank3(a)
    ensures SumTrials(TimeWindow(a, lo, hi), u, t, n) == SumTrials(a, u, lo + t, n)
  {
    if n > 0 {
      SumTrialsOfWindow(a, lo, hi, u, t, n - 1);
    }
  }

  /** Pool the trials of a and b, reorder the pool by `perm` and cut it back
      into two groups of a's and b's original trial counts. Both the
      resampling engine (pool[:, shuf][:, :part] and [:, part:]) and the
      shuffled pairwise distances (hstack, shuffle, split) do this. */
  function ShuffleSplit(a: NdArray, b: NdArray, perm: seq<nat>): (NdArray, NdArray)
    requires Rank3(a) && Rank3(b)
    requires NumTrials(a) <= |perm|
  {
    var pool := ConcatTrials(a, b);
    (SelectTrials(pool, perm[..NumTrials(a)]), SelectTrials(pool, perm[NumTrials(a)..]))
  }

  /** The split keeps each group's trial count, and between them the two new
      groups hold every pooled trial exactly once, each taken from the pool
      position the permutation names. */
  lemma ShuffleSplitIsPermutation(a: NdArray, b: NdArray, perm: seq<nat>)
    requires Rank3(a) && Rank3(b) && Concatenable(a, b)
    requires IsPermutation(perm, NumTrials(a) + NumTrials(b))
    ensures |perm| == NumTrials(a) + NumTrials(b)
    ensures var (x, y) := ShuffleSplit(a, b, perm);
      && x.shape == a.shape && y.shape == b.shape
      && multiset(perm[..NumTrials(a)]) + multiset(perm[NumTrials(a)..]) == multiset(Iota(NumTrials(a) + NumTrials(b)))
      && (forall u: nat, j: nat, t: nat :: j < NumTrials(a) ==>
            Get(x, u, j, t) == Get(ConcatTrials(a, b), u, perm[j], t))
      && (forall u: nat, j: nat, t: nat :: j < NumTrials(b) ==>
            Get(y, u, j, t) == Get(ConcatTrials(a, b), u, perm[NumTrials(a) + j], t))
  {
    assert perm == perm[..NumTrials(a)] + perm[NumTrials(a)..];
  }
}
