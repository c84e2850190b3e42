/** The permutation-distribution engine: a quantification (a metric of two
    (units, trials) blocks) evaluated at every timepoint on NUM_SAMPLES
    random re-splits of the pooled trials of two classes. The samples are
    spread over worker partitions; here the partitions run one after the
    other, and each random shuffle is an input. */
module Quantification {
  import opened Common
  import opened Tensor

  /** QuanDistribution.NUM_SAMPLES */
  const NumSamples: nat := 10000
  /** The number of worker partitions calculate uses. */
  const NumPools: nat := 4

  /** A quantification: its name (get_name) and the value it computes from a
      class-1 and a class-2 (units, trials) block. */
  datatype Quantification = Quantification(name: string, metric: (Matrix, Matrix) -> real)

  /** A distribution over two (units, trials, t) classes. */
  datatype QuanDistribution = QuanDistribution(class1: NdArray, class2: NdArray, quan: Quantification)
  {
    predicate Valid() { Rank3(class1) && Rank3(class2) }
  }

  /** QuanDistribution.__init__: both inputs must be 3-dimensional. */
  function NewQuanDistribution(class1: NdArray, class2: NdArray, quan: Quantification)
    : (r: Result<QuanDistribution>)
    ensures r.Ok? <==> |class1.shape| == 3 && |class2.shape| == 3
    ensures r.Err? ==> r.error == NotThreeDimensional
    ensures r.Ok? ==> r.value.Valid() && r.value == QuanDistribution(class1, class2, quan)
  {
    if |class1.shape| != 3 || |class2.shape| != 3 then Err(NotThreeDimensional)
    else Ok(QuanDistribution(class1, class2, quan))
  }

  // ---------------------------------------------------------------------
  // _calc_sample_args

  /** The argument of one partition: a bare sample count, or a count paired
      with the display flag. */
  datatype SampleArg = Plain(count: nat) | WithDisplay(count: nat, display: bool)

  /** A bare count does not display progress. */
  function Displays(arg: SampleArg): bool {
    match arg
    case Plain(_) => false
    case WithDisplay(_, display) => display
  }

  /** The total sample count of a list of partition arguments. */
  function TotalCount(args: seq<SampleArg>): nat {
    if args == [] then 0 else TotalCount(args[..|args| - 1]) + args[|args| - 1].count
  }

  /** n copies of Plain(q) count n q samples. */
  lemma {:induction false} TotalCountOfCopies(args: seq<SampleArg>, q: nat)
    requires forall i :: 0 <= i < |args| ==> args[i] == Plain(q)
    ensures TotalCount(args) == |args| * q
  {
    if args != [] {
      TotalCountOfCopies(args[..|args| - 1], q);
    }
  }

  /** One more argument adds its own count. */
  lemma TotalCountSnoc(args: seq<SampleArg>, k: nat)
    requires k < |args|
    ensures TotalCount(args[..k + 1]) == TotalCount(args[..k]) + args[k].count
  {
    assert args[..k + 1][..k] == args[..k];
  }

  /** A prefix of the arguments counts no more than all of them. */
  lemma {:induction false} TotalCountPrefix(args: seq<SampleArg>, k: nat)
    requires k <= |args|
    ensures TotalCount(args[..k]) <= TotalCount(args)
    decreases |args| - k
  {
    if k < |args| {
      TotalCountSnoc(args, k);
      TotalCountPrefix(args, k + 1);
    } else {
      assert args[..k] == args;
    }
  }

  /** Equal counts q with the remainder added to the last count rem more
      than p q samples. */
  lemma LastTakesRemainder(nums: seq<SampleArg>, q: nat, rem: nat)
    requires |nums| > 0 && nums[|nums| - 1].count == q + rem
    requires forall i :: 0 <= i < |nums| - 1 ==> nums[i] == Plain(q)
    ensures TotalCount(nums) == |nums| * q + rem
  {
    TotalCountOfCopies(nums[..|nums| - 1], q);
    assert (|nums| - 1) * q + q == |nums| * q;
  }

  /** The samples every one of p partitions gets: floor(N / p). */
  function Share(p: nat): nat requires p > 0 { NumSamples / p }

  /** The samples left over after p equal shares: N mod p. */
  function Leftover(p: nat): nat requires p > 0 { NumSamples % p }

  /** The partition arguments _calc_sample_args builds for p partitions:
      one per partition, and none (a division by zero) for no partitions. */
  function SampleArgs(p: nat): (r: Result<seq<SampleArg>>)
    ensures r.Ok? <==> p > 0
    ensures r.Err? ==> r.error == DivisionByZero
    ensures r.Ok? ==> |r.value| == p
  {
    if p == 0 then Err(DivisionByZero)
    else
      var nums := seq(p, _ => Plain(Share(p)));
      Ok(nums[p - 1 := WithDisplay(nums[p - 1].count + Leftover(p), true)])
  }

  /** Every partition gets floor(N / p) samples; the last one also takes the
      remainder and is the only one that displays progress, so the
      partitions count N samples in all. */
  lemma SampleArgsSplit(p: nat)
    ensures p > 0 ==> forall i :: 0 <= i < p - 1 ==> SampleArgs(p).value[i] == Plain(Share(p))
    ensures p > 0 ==> SampleArgs(p).value[p - 1] == WithDisplay(Share(p) + Leftover(p), true)
    ensures p > 0 ==> TotalCount(SampleArgs(p).value) == NumSamples
    ensures SampleArgs(p).Ok? ==> forall i :: 0 <= i < p ==> (Displays(SampleArgs(p).value[i]) <==> i == p - 1)
  {
    if p > 0 {
      var nums := SampleArgs(p).value;
      LastTakesRemainder(nums, Share(p), Leftover(p));
      assert p * Share(p) + Leftover(p) == NumSamples;
    }
  }

  // ---------------------------------------------------------------------
  // _calculate

  /** The two re-split classes of one sample: the pooled trials reordered by
      `perm`, cut at the class-1 trial count. */
  function SampleClasses(d: QuanDistribution, perm: seq<nat>): (NdArray, NdArray)
    requires d.Valid() && NumTrials(d.class1) <= |perm|
  {
    ShuffleSplit(d.class1, d.class2, perm)
  }

  /** One sample: the quantification of the two re-split classes at every
      timepoint of the pool. */
  function SampleRow(d: QuanDistribution, perm: seq<nat>): (row: seq<real>)
    requires d.Valid() && NumTrials(d.class1) <= |perm|
    ensures |row| == NumTimes(d.class1)
  {
    var (c1, c2) := SampleClasses(d, perm);
    seq(NumTimes(d.class1), (t: int) requires 0 <= t => d.quan.metric(TimeSlice(c1, t), TimeSlice(c2, t)))
  }

  /** The re-split classes keep the class sizes and between them hold every
      pooled trial once; at timepoint t the quantification sees, as trial j
      of each class, the pooled trial the permutation puts there. */
  lemma SampleRowIsResplit(d: QuanDistribution, perm: seq<nat>, t: nat)
    requires d.Valid() && Concatenable(d.class1, d.class2)
    requires IsPermutation(perm, NumTrials(d.class1) + NumTrials(d.class2))
    requires t < NumTimes(d.class1)
    ensures |perm| == NumTrials(d.class1) + NumTrials(d.class2)
    ensures var (c1, c2) := SampleClasses(d, perm);
      && c1.shape == d.class1.shape && c2.shape == d.class2.shape
      && SampleRow(d, perm)[t] == d.quan.metric(TimeSlice(c1, t), TimeSlice(c2, t))
      && multiset(perm[..NumTrials(d.class1)]) + multiset(perm[NumTrials(d.class1)..])
         == multiset(Iota(NumTrials(d.class1) + NumTrials(d.class2)))
      && (forall u: nat, j: nat :: j < NumTrials(d.class1) ==>
            TimeSlice(c1, t).at(u, j) == Get(ConcatTrials(d.class1, d.class2), u, perm[j], t))
      && (forall u: nat, j: nat :: j < NumTrials(d.class2) ==>
            TimeSlice(c2, t).at(u, j) == Get(ConcatTrials(d.class1, d.class2), u, perm[NumTrials(d.class1) + j], t))
  {
    ShuffleSplitIsPermutation(d.class1, d.class2, perm);
  }

  /** Without shuffling (the identity permutation) the re-split classes are
      the original classes. */
  lemma IdentityKeepsClasses(d: QuanDistribution, u: nat, j: nat, t: nat)
    requires d.Valid() && Concatenable(d.class1, d.class2)
    ensures var (c1, c2) := SampleClasses(d, Iota(NumTrials(d.class1) + NumTrials(d.class2)));
      && (j < NumTrials(d.class1) ==> Get(c1, u, j, t) == Get(d.class1, u, j, t))
      && (j < NumTrials(d.class2) ==> Get(c2, u, j, t) == Get(d.class2, u, j, t))
  {
  }

  /** Every sample's shuffle is a permutation of the pooled trials. */
  predicate PermsOfPool(d: QuanDistribution, perms: seq<seq<nat>>)
    requires d.Valid()
  {
    forall i :: 0 <= i < |perms| ==> IsPermutation(perms[i], NumTrials(d.class1) + NumTrials(d.class2))
  }

  /** The samples of one partition: one row per shuffle, or the error of
      concatenating classes whose units or time axes differ. */
  function PartitionRows(d: QuanDistribution, perms: seq<seq<nat>>): (r: Result<seq<seq<real>>>)
    requires d.Valid() && PermsOfPool(d, perms)
    ensures r.Ok? <==> Concatenable(d.class1, d.class2)
    ensures r.Err? ==> r.error == ConcatShapeMismatch
    ensures r.Ok? ==> |r.value| == |perms|
  {
    if !Concatenable(d.class1, d.class2) then Err(ConcatShapeMismatch)
    else
      Ok(seq(|perms|, (i: int) requires 0 <= i < |perms| => SampleRow(d, perms[i])))
  }

  /** The rows of two runs of shuffles, one after the other, are the rows of
      the first run followed by those of the second. */
  lemma PartitionRowsAppend(d: QuanDistribution, p: seq<seq<nat>>, q: seq<seq<nat>>)
    requires d.Valid() && Concatenable(d.class1, d.class2)
    requires PermsOfPool(d, p) && PermsOfPool(d, q)
    ensures PermsOfPool(d, p + q)
    ensures PartitionRows(d, p + q).value == PartitionRows(d, p).value + PartitionRows(d, q).value
  {
    assert forall i :: 0 <= i < |q| ==> (p + q)[|p| + i] == q[i];
  }

  /** QuanDistribution._calculate: `perms` holds the shuffle of each of the
      partition's samples. Returns exactly that many rows, row i holding
      the quantification of shuffle i at every timepoint. */
  method CalculatePartition(d: QuanDistribution, arg: SampleArg, perms: seq<seq<nat>>)
    returns (r: Result<seq<seq<real>>>)
    requires d.Valid() && |perms| == arg.count && PermsOfPool(d, perms)
    ensures r == PartitionRows(d, perms)
  {
    var numSamples := arg.count;
    var display := Displays(arg);
    if !Concatenable(d.class1, d.class2) {
      return Err(ConcatShapeMismatch);
    }
    var allValues0 := ConcatTrials(d.class1, d.class2);
    var part := NumTrials(d.class1);
    var quanValues: seq<seq<real>> := [];
    for progress := 0 to numSamples
      invariant |quanValues| == progress
      invariant forall i :: 0 <= i < progress ==> quanValues[i] == SampleRow(d, perms[i])
    {
      var shuf := perms[progress];
      var newClass1 := SelectTrials(allValues0, shuf[..part]);
      var newClass2 := SelectTrials(allValues0, shuf[part..]);
      var timepoints: seq<real> := [];
      for t := 0 to NumTimes(allValues0)
        invariant |timepoints| == t
        invariant forall k :: 0 <= k < t ==> timepoints[k] == SampleRow(d, shuf)[k]
      {
        timepoints := timepoints + [d.quan.metric(TimeSlice(newClass1, t), TimeSlice(newClass2, t))];
      }
      assert timepoints == SampleRow(d, shuf);
      quanValues := quanValues + [timepoints];
    }
    ghost var expected := PartitionRows(d, perms);
    assert |expected.value| == numSamples;
    forall i | 0 <= i < numSamples ensures quanValues[i] == expected.value[i] { }
    assert quanValues == expected.value;
    return Ok(quanValues);
  }

  // ---------------------------------------------------------------------
  // calculate

  /** QuanDistribution.calculate: the sample arguments for four partitions,
      each partition's rows, concatenated in partition order. `perms` holds
      the shuffles of all samples, partition after partition. */
  method Calculate(d: QuanDistribution, perms: seq<seq<nat>>) returns (r: Result<seq<seq<real>>>)
    requires d.Valid() && |perms| == NumSamples && PermsOfPool(d, perms)
    ensures r.Ok? <==> Concatenable(d.class1, d.class2)
    ensures r.Err? ==> r.error == ConcatShapeMismatch
    ensures r.Ok? ==> |r.value| == NumSamples
    ensures r.Ok? ==> forall i :: 0 <= i < NumSamples ==> r.value[i] == SampleRow(d, perms[i])
  {
    SampleArgsSplit(NumPools);
    var args := SampleArgs(NumPools).value;
    var dists: seq<seq<real>> := [];
    var offset := 0;
    for k := 0 to |args|
      invariant offset == TotalCount(args[..k]) && offset <= NumSamples
      invariant k == 0 ==> dists == []
      invariant k > 0 ==> Concatenable(d.class1, d.class2) && dists == PartitionRows(d, perms[..offset]).value
    {
      TotalCountSnoc(args, k);
      TotalCountPrefix(args, k + 1);
      var count := args[k].count;
      var rows := CalculatePartition(d, args[k], perms[offset..offset + count]);
      if rows.Err? {
        return Err(rows.error);
      }
      if k > 0 {
        PartitionRowsAppend(d, perms[..offset], perms[offset..offset + count]);
        assert perms[..offset] + perms[offset..offset + count] == perms[..offset + count];
      } else {
        assert perms[offset..offset + count] == perms[..offset + count];
      }
      dists := dists + rows.value;
      offset := offset + count;
    }
    assert args[..|args|] == args;
    return Ok(dists);
  }
}
