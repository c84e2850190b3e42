/** RpPeriCalculator: subtracts the average saccade response from every mixed
    (probe + saccade) trial, either at a fixed alignment (calculate_static) or
    with the average shifted by each trial's saccade-probe offset
    (calculate). The firing rates are (units, trials, t) with t three times
    the window: [-window, 0, 2 window]. */
module RpPeri {
  import opened Common
  import opened Tensor
  import opened Trials
  import opened SaccadicModulation

  /** First bin of the centre window; the code fixes it at 35. */
  const CentreStart: nat := 35
  /** Length of the centre window and of the baseline snippet. */
  const CentreLen: nat := 35
  /** Largest bin shift applied to the baseline, either way. */
  const MaxShift: int := 35

  /** The calculator's state: the firing rates, a third of their time axis,
      which firing-rate trials are saccade trials and which are mixed
      trials, and the trial group the mixed trials are read from. */
  datatype RpPeriCalculator = RpPeriCalculator(
    fr: NdArray, windowSize: nat, sacIdxs: seq<nat>, mixIdxs: seq<nat>, trialGroup: TrialGroup)

  /** RpPeriCalculator.__init__: the time axis (the last one) must split into
      three equal windows. */
  function NewRpPeriCalculator(fr: NdArray, sacIdxs: seq<nat>, mixIdxs: seq<nat>, g: TrialGroup)
    : (r: Result<RpPeriCalculator>)
    ensures |fr.shape| == 0 ==> r == Err(EmptyShape)
    ensures |fr.shape| > 0 ==> (r.Ok? <==> fr.shape[|fr.shape| - 1] % 3 == 0)
    ensures |fr.shape| > 0 && r.Err? ==> r.error == TimeAxisNotDivisible
    ensures r.Ok? ==> 3 * r.value.windowSize == fr.shape[|fr.shape| - 1]
    ensures r.Ok? ==> r.value == RpPeriCalculator(fr, r.value.windowSize, sacIdxs, mixIdxs, g)
  {
    if |fr.shape| == 0 then Err(EmptyShape)
    else if fr.shape[|fr.shape| - 1] % 3 != 0 then Err(TimeAxisNotDivisible)
    else Ok(RpPeriCalculator(fr, fr.shape[|fr.shape| - 1] / 3, sacIdxs, mixIdxs, g))
  }

  /** Every index addresses an existing trial (numpy raises IndexError otherwise). */
  predicate InRange(idxs: seq<nat>, n: nat) {
    forall k :: 0 <= k < |idxs| ==> idxs[k] < n
  }

  /** The average over the saccade trials of unit u at time t. */
  function SaccadeMean(c: RpPeriCalculator, u: nat, t: nat): real
    requires Rank3(c.fr) && |c.sacIdxs| > 0
  {
    AverageTrials(SelectTrials(c.fr, c.sacIdxs)).at(u, t)
  }

  // ---------------------------------------------------------------------
  // calculate_static

  /** calculate_static: the centre window of every mixed trial minus the
      saccade average over the same window, as a (units, mixed, t) array. */
  function CalculateStatic(c: RpPeriCalculator): (r: Result<NdArray>)
    requires Rank3(c.fr) && |c.sacIdxs| > 0
    ensures r.Ok? <==> InRange(c.sacIdxs, NumTrials(c.fr)) && InRange(c.mixIdxs, NumTrials(c.fr))
    ensures r.Err? ==> r.error == TrialIndexOutOfRange
    ensures r.Ok? ==>
      r.value.shape == [NumUnits(c.fr), |c.mixIdxs|, SliceLen(NumTimes(c.fr), CentreStart, CentreStart + CentreLen)]
  {
    if !InRange(c.sacIdxs, NumTrials(c.fr)) || !InRange(c.mixIdxs, NumTrials(c.fr)) then
      Err(TrialIndexOutOfRange)
    else
      var sacWaveforms := TimeWindow(SelectTrials(c.fr, c.sacIdxs), CentreStart, CentreStart + CentreLen);
      var sacAverage := AverageTrials(sacWaveforms);
      var mixedWaveforms := TimeWindow(SelectTrials(c.fr, c.mixIdxs), CentreStart, CentreStart + CentreLen);
      Ok(SubtractAverage(mixedWaveforms, sacAverage))
  }

  /** Mixed firing-rate trial m of unit u at centre bin 35 + t, minus the
      saccade average of unit u read s bins away from it. */
  function PeriValue(c: RpPeriCalculator, m: nat, u: nat, s: int, t: nat): real
    requires Rank3(c.fr) && |c.sacIdxs| > 0 && CentreStart + s + t >= 0
  {
    Get(c.fr, u, m, CentreStart + t) - SaccadeMean(c, u, CentreStart + s + t)
  }

  /** Element (u, i, t) of calculate_static is mixed trial mixIdxs[i] at
      time 35 + t minus the saccade average at the same time. */
  lemma CalculateStaticAt(c: RpPeriCalculator, u: nat, i: nat, t: nat)
    requires Rank3(c.fr) && |c.sacIdxs| > 0 && CalculateStatic(c).Ok?
    requires i < |c.mixIdxs|
    ensures Get(CalculateStatic(c).value, u, i, t) == PeriValue(c, c.mixIdxs[i], u, 0, t)
  {
    SumTrialsOfWindow(SelectTrials(c.fr, c.sacIdxs), CentreStart, CentreStart + CentreLen, u, t, |c.sacIdxs|);
  }

  // ---------------------------------------------------------------------
  // calculate

  /** The baseline shift of a mixed trial: its saccade-probe offset in bins,
      clipped to [-35, 35] and negated. `toBins` is the rounding of a
      second offset to whole firing-rate bins. */
  function Shift(toBins: real -> int, tr: Trial): (s: int)
    requires tr.events.MixedEvents?
    ensures -MaxShift <= s <= MaxShift
  {
    -Clip(toBins(tr.events.saccadeTime - tr.events.probeTime), -MaxShift, MaxShift)
  }

  /** The baseline snippet starts inside [0, 70]; a saccade after the probe
      moves it earlier in the saccade average and a saccade before the probe
      moves it later, by the offset up to 35 bins. */
  lemma ShiftDirection(toBins: real -> int, tr: Trial)
    requires tr.events.MixedEvents?
    ensures 0 <= CentreStart + Shift(toBins, tr) <= CentreStart + MaxShift
    ensures var off := toBins(tr.events.saccadeTime - tr.events.probeTime);
      && (off > 0 ==> CentreStart + Shift(toBins, tr) < CentreStart)
      && (off < 0 ==> CentreStart + Shift(toBins, tr) > CentreStart)
      && (off == 0 ==> Shift(toBins, tr) == 0)
      && Abs(Shift(toBins, tr)) == Min(Abs(off), MaxShift)
  {
  }

  /** numpy's subtraction of two 1-D arrays: equal lengths, or one of length
      1 stretched along the other; anything else cannot be broadcast. */
  function BroadcastSub(a: seq<real>, b: seq<real>): (r: Result<seq<real>>)
    ensures r.Ok? <==> |a| == |b| || |a| == 1 || |b| == 1
    ensures r.Err? ==> r.error == BroadcastMismatch
    ensures r.Ok? ==> |r.value| == (if |a| == 1 then |b| else |a|)
    ensures r.Ok? ==> forall k :: 0 <= k < |r.value| ==>
      r.value[k] == (if |a| == 1 then a[0] else a[k]) - (if |b| == 1 then b[0] else b[k])
  {
    if |a| == |b| then Ok(seq(|a|, k requires 0 <= k < |a| => a[k] - b[k]))
    else if |a| == 1 then Ok(seq(|b|, k requires 0 <= k < |b| => a[0] - b[k]))
    else if |b| == 1 then Ok(seq(|a|, k requires 0 <= k < |a| => a[k] - b[0]))
    else Err(BroadcastMismatch)
  }

  /** fr[u, j, :] */
  function FrRow(c: RpPeriCalculator, u: nat, j: nat): (r: seq<real>)
    requires Rank3(c.fr)
    ensures |r| == NumTimes(c.fr)
  {
    seq(NumTimes(c.fr), (t: int) requires 0 <= t => Get(c.fr, u, j, t))
  }

  /** The saccade average of unit u over the whole time axis. */
  function AverageRow(c: RpPeriCalculator, u: nat): (r: seq<real>)
    requires Rank3(c.fr) && |c.sacIdxs| > 0
    ensures |r| == NumTimes(c.fr)
  {
    seq(NumTimes(c.fr), (t: int) requires 0 <= t => SaccadeMean(c, u, t))
  }

  /** The row of unit u for mixed firing-rate trial m at baseline shift s:
      the centre window minus the shifted 35-bin snippet of the average. */
  function PeriRow(c: RpPeriCalculator, s: int, m: nat, u: nat): (r: Result<seq<real>>)
    requires Rank3(c.fr) && |c.sacIdxs| > 0 && -MaxShift <= s <= MaxShift
    ensures r.Ok? <==> Broadcastable(NumTimes(c.fr), s)
  {
    BroadcastSub(Slice(FrRow(c, u, m), CentreStart, CentreStart + CentreLen),
                 Slice(AverageRow(c, u), CentreStart + s, s + CentreStart + CentreLen))
  }

  /** The centre window and the shifted snippet can be subtracted. */
  predicate Broadcastable(n: nat, s: int)
    requires -MaxShift <= s <= MaxShift
  {
    var a := SliceLen(n, CentreStart, CentreStart + CentreLen);
    var b := SliceLen(n, CentreStart + s, s + CentreStart + CentreLen);
    a == b || a == 1 || b == 1
  }

  /** The rows of the trIdx-th mixed trial of the group at baseline shift s:
      one per unit. The firing-rate index lookups and the subtraction happen
      per unit, so with no units they never fail. */
  function TrialRows(c: RpPeriCalculator, s: int, trIdx: nat): (r: Result<seq<seq<real>>>)
    requires Rank3(c.fr) && |c.sacIdxs| > 0 && -MaxShift <= s <= MaxShift
    ensures r.Ok? ==> |r.value| == NumUnits(c.fr)
    ensures r.Ok? ==> forall u :: 0 <= u < |r.value| ==> |r.value[u]| == |r.value[0]|
  {
    if NumUnits(c.fr) == 0 then Ok([])
    else if trIdx >= |c.mixIdxs| then Err(MixedIndexOutOfRange)
    else if c.mixIdxs[trIdx] >= NumTrials(c.fr) then Err(TrialIndexOutOfRange)
    else if !Broadcastable(NumTimes(c.fr), s) then Err(BroadcastMismatch)
    else Ok(seq(NumUnits(c.fr), (u: int) requires 0 <= u => PeriRow(c, s, c.mixIdxs[trIdx], u).value))
  }

  /** The rows of mixed trial tr, the trIdx-th mixed trial of the group.
      Reading the trial's events fails first. */
  function TrialPeri(c: RpPeriCalculator, toBins: real -> int, tr: Trial, trIdx: nat)
    : (r: Result<seq<seq<real>>>)
    requires Rank3(c.fr) && |c.sacIdxs| > 0
    ensures r.Ok? ==> |r.value| == NumUnits(c.fr)
    ensures r.Ok? ==> forall u :: 0 <= u < |r.value| ==> |r.value[u]| == |r.value[0]|
  {
    if tr.events.NoEvents? then Err(MissingEvents)
    else TrialRows(c, Shift(toBins, tr), trIdx)
  }

  /** The rows of the first n mixed trials, or the first error. */
  function AllPeri(c: RpPeriCalculator, toBins: real -> int, mixed: seq<Trial>, n: nat)
    : (r: Result<seq<seq<seq<real>>>>)
    requires Rank3(c.fr) && |c.sacIdxs| > 0 && n <= |mixed|
    ensures r.Ok? ==> |r.value| == n
    ensures r.Ok? ==> forall i :: 0 <= i < n ==> TrialPeri(c, toBins, mixed[i], i) == Ok(r.value[i])
  {
    if n == 0 then Ok([])
    else
      var prev := AllPeri(c, toBins, mixed, n - 1);
      if prev.Err? then Err(prev.error)
      else
        var rows := TrialPeri(c, toBins, mixed[n - 1], n - 1);
        if rows.Err? then Err(rows.error) else Ok(prev.value + [rows.value])
  }

  lemma {:induction false} AllPeriFirstErrorWins(c: RpPeriCalculator, toBins: real -> int,
                                                 mixed: seq<Trial>, m: nat, n: nat)
    requires Rank3(c.fr) && |c.sacIdxs| > 0 && m <= n <= |mixed|
    requires AllPeri(c, toBins, mixed, m).Err?
    ensures AllPeri(c, toBins, mixed, n) == AllPeri(c, toBins, mixed, m)
  {
    if m < n {
      AllPeriFirstErrorWins(c, toBins, mixed, m, n - 1);
    }
  }

  /** Each trial's rows are one per unit, all of one length, so the rows
      of a successful pass can be stacked unless their lengths differ
      between trials. */
  lemma AllPeriUniform(c: RpPeriCalculator, toBins: real -> int, mixed: seq<Trial>, n: nat)
    requires Rank3(c.fr) && |c.sacIdxs| > 0 && n <= |mixed| && AllPeri(c, toBins, mixed, n).Ok?
    ensures Uniform(AllPeri(c, toBins, mixed, n).value, NumUnits(c.fr))
  {
    var all := AllPeri(c, toBins, mixed, n).value;
    forall i | 0 <= i < |all|
      ensures |all[i]| == NumUnits(c.fr) && forall u :: 0 <= u < NumUnits(c.fr) ==> |all[i][u]| == |all[i][0]|
    {
      assert TrialPeri(c, toBins, mixed[i], i) == Ok(all[i]);
    }
  }

  /** Rows of one length per trial. */
  predicate Uniform(all: seq<seq<seq<real>>>, units: nat) {
    forall i :: 0 <= i < |all| ==>
      |all[i]| == units && forall u :: 0 <= u < units ==> |all[i][u]| == |all[i][0]|
  }

  /** np.array(all).swapaxes(0, 1) for all = (trials, units, t): no trials
      leave a 1-D empty array that has no axis 1; trials of different row
      lengths cannot be stacked; with no units the array is (trials, 0) and
      becomes (0, trials). */
  function StackSwapped(all: seq<seq<seq<real>>>, units: nat): (r: Result<NdArray>)
    requires Uniform(all, units)
    ensures |all| == 0 ==> r == Err(SwapAxesOnEmpty)
    ensures |all| > 0 && units == 0 ==> r.Ok? && r.value.shape == [0, |all|]
    ensures |all| > 0 && units > 0 ==>
      (r.Ok? <==> forall i :: 0 <= i < |all| ==> |all[i][0]| == |all[0][0]|)
    ensures r.Err? && |all| > 0 ==> r.error == RaggedStack
    ensures r.Ok? && units > 0 ==> r.value.shape == [units, |all|, |all[0][0]|]
    ensures r.Ok? && units > 0 ==> forall u: nat, i: nat, t: nat :: u < units && i < |all| && t < |all[0][0]| ==>
      Get(r.value, u, i, t) == all[i][u][t]
  {
    if |all| == 0 then Err(SwapAxesOnEmpty)
    else if units == 0 then Ok(NdArray([0, |all|], (u: nat, i: nat, t: nat) => 0.0))
    else if exists i :: 0 <= i < |all| && |all[i][0]| != |all[0][0]| then Err(RaggedStack)
    else
      Ok(NdArray([units, |all|, |all[0][0]|],
        (u: nat, i: nat, t: nat) =>
          if i < |all| && u < |all[i]| && t < |all[i][u]| then all[i][u][t] else 0.0))
  }

  /** What calculate returns: the saccade trials are looked up first, then
      every mixed trial of the group in group order, then the stack. */
  function RpPeriOf(c: RpPeriCalculator, toBins: real -> int): Result<NdArray>
    requires Rank3(c.fr) && |c.sacIdxs| > 0
  {
    if !InRange(c.sacIdxs, NumTrials(c.fr)) then Err(TrialIndexOutOfRange)
    else
      var mixed := TrialsByType(c.trialGroup, Mixed);
      var all := AllPeri(c, toBins, mixed, |mixed|);
      if all.Err? then Err(all.error)
      else StackSwapped(all.value, NumUnits(c.fr))
  }

  /** One pass of calculate's loop over mixed trials: the offset turned into
      a shift, the shifted snippet of the saccade average, and the rows. */
  method MixedTrialPeri(c: RpPeriCalculator, toBins: real -> int, sacAverage: seq<seq<real>>,
                        tr: Trial, trIdx: nat) returns (rows: Result<seq<seq<real>>>)
    requires Rank3(c.fr) && |c.sacIdxs| > 0
    requires |sacAverage| == NumUnits(c.fr)
    requires forall u :: 0 <= u < |sacAverage| ==> sacAverage[u] == AverageRow(c, u)
    ensures rows == TrialPeri(c, toBins, tr, trIdx)
  {
    var units := NumUnits(c.fr);
    if tr.events.NoEvents? {
      return Err(MissingEvents);
    }
    var offset := toBins(tr.events.saccadeTime - tr.events.probeTime);
    offset := Clip(offset, -MaxShift, MaxShift);
    offset := -1 * offset;
    assert offset == Shift(toBins, tr);
    var sacWv := seq(units, (u: int) requires 0 <= u < units =>
                             Slice(sacAverage[u], CentreStart + offset, offset + CentreStart + CentreLen));
    rows := UnitRows(c, sacWv, offset, trIdx);
  }

  /** The inner loop over units: unit u's centre window of the mixed trial
      minus unit u's shifted snippet. */
  method UnitRows(c: RpPeriCalculator, sacWv: seq<seq<real>>, offset: int, trIdx: nat)
    returns (rows: Result<seq<seq<real>>>)
    requires Rank3(c.fr) && |c.sacIdxs| > 0 && -MaxShift <= offset <= MaxShift
    requires |sacWv| == NumUnits(c.fr)
    requires forall u :: 0 <= u < |sacWv| ==>
      sacWv[u] == Slice(AverageRow(c, u), CentreStart + offset, offset + CentreStart + CentreLen)
    ensures rows == TrialRows(c, offset, trIdx)
  {
    var units := NumUnits(c.fr);
    var mixedPeriWavs: seq<seq<real>> := [];
    for unitNum := 0 to units
      invariant |mixedPeriWavs| == unitNum
      invariant unitNum > 0 ==> trIdx < |c.mixIdxs| && c.mixIdxs[trIdx] < NumTrials(c.fr)
                                && Broadcastable(NumTimes(c.fr), offset)
      invariant forall u :: 0 <= u < unitNum ==>
                  trIdx < |c.mixIdxs| && mixedPeriWavs[u] == PeriRow(c, offset, c.mixIdxs[trIdx], u).value
    {
      if trIdx >= |c.mixIdxs| {
        return Err(MixedIndexOutOfRange);
      }
      var m := c.mixIdxs[trIdx];
      if m >= NumTrials(c.fr) {
        return Err(TrialIndexOutOfRange);
      }
      var rpperi := UnitRow(c, sacWv[unitNum], offset, m, unitNum);
      if rpperi.Err? {
        return Err(rpperi.error);
      }
      ghost var before := mixedPeriWavs;
      mixedPeriWavs := mixedPeriWavs + [rpperi.value];
      forall u | 0 <= u < unitNum + 1
        ensures mixedPeriWavs[u] == PeriRow(c, offset, m, u).value
      {
        if u < unitNum {
          assert mixedPeriWavs[u] == before[u];
        }
      }
    }
    TrialRowsAre(c, offset, trIdx, mixedPeriWavs);
    return Ok(mixedPeriWavs);
  }

  /** Rows computed unit by unit are the trial's rows. */
  lemma TrialRowsAre(c: RpPeriCalculator, offset: int, trIdx: nat, rows: seq<seq<real>>)
    requires Rank3(c.fr) && |c.sacIdxs| > 0 && -MaxShift <= offset <= MaxShift
    requires |rows| == NumUnits(c.fr)
    requires |rows| > 0 ==> trIdx < |c.mixIdxs| && c.mixIdxs[trIdx] < NumTrials(c.fr)
                            && Broadcastable(NumTimes(c.fr), offset)
    requires forall u :: 0 <= u < |rows| ==>
               trIdx < |c.mixIdxs| && rows[u] == PeriRow(c, offset, c.mixIdxs[trIdx], u).value
    ensures TrialRows(c, offset, trIdx) == Ok(rows)
  {
    var expected := TrialRows(c, offset, trIdx);
    if |rows| > 0 {
      assert |expected.value| == |rows|;
      forall u | 0 <= u < |rows| ensures rows[u] == expected.value[u] { }
      assert rows == expected.value;
    } else {
      assert rows == [];
    }
  }

  /** One pass of the loop over units: the centre window of unit u in mixed
      firing-rate trial m minus unit u's shifted snippet. */
  method UnitRow(c: RpPeriCalculator, sacWvU: seq<real>, offset: int, m: nat, u: nat)
    returns (r: Result<seq<real>>)
    requires Rank3(c.fr) && |c.sacIdxs| > 0 && -MaxShift <= offset <= MaxShift
    requires sacWvU == Slice(AverageRow(c, u), CentreStart + offset, offset + CentreStart + CentreLen)
    ensures r == PeriRow(c, offset, m, u)
  {
    var unitTrialFr := Slice(FrRow(c, u, m), CentreStart, CentreStart + CentreLen);
    r := BroadcastSub(unitTrialFr, sacWvU);
  }

  /** RpPeriCalculator.calculate */
  method Calculate(c: RpPeriCalculator, toBins: real -> int) returns (r: Result<NdArray>)
    requires Rank3(c.fr) && |c.sacIdxs| > 0
    ensures r == RpPeriOf(c, toBins)
  {
    if !InRange(c.sacIdxs, NumTrials(c.fr)) {
      return Err(TrialIndexOutOfRange);
    }
    var units := NumUnits(c.fr);
    var sacAverage := seq(units, (u: int) requires 0 <= u => AverageRow(c, u));
    var mixed := TrialsByType(c.trialGroup, Mixed);
    var allMixedPeri := MixedTrialsPeri(c, toBins, sacAverage, mixed);
    if allMixedPeri.Err? {
      return Err(allMixedPeri.error);
    }
    r := StackSwapped(allMixedPeri.value, units);
  }

  /** calculate's loop over the mixed trials of the group, in group order,
      stopping at the first trial that fails. */
  method MixedTrialsPeri(c: RpPeriCalculator, toBins: real -> int, sacAverage: seq<seq<real>>, mixed: seq<Trial>)
    returns (r: Result<seq<seq<seq<real>>>>)
    requires Rank3(c.fr) && |c.sacIdxs| > 0
    requires |sacAverage| == NumUnits(c.fr)
    requires forall u :: 0 <= u < |sacAverage| ==> sacAverage[u] == AverageRow(c, u)
    ensures r == AllPeri(c, toBins, mixed, |mixed|)
  {
    var allMixedPeri: seq<seq<seq<real>>> := [];
    for trIdx := 0 to |mixed|
      invariant AllPeri(c, toBins, mixed, trIdx) == Ok(allMixedPeri)
    {
      var mixedPeriWavs := MixedTrialPeri(c, toBins, sacAverage, mixed[trIdx], trIdx);
      if mixedPeriWavs.Err? {
        AllPeriFirstErrorWins(c, toBins, mixed, trIdx + 1, |mixed|);
        return Err(mixedPeriWavs.error);
      }
      allMixedPeri := allMixedPeri + [mixedPeriWavs.value];
    }
    return Ok(allMixedPeri);
  }

  // ---------------------------------------------------------------------
  // Properties of calculate

  /** With a time axis of at least 105 bins both slices are 35 long, so the
      row of unit u is the centre window minus the shifted snippet, bin by
      bin. */
  lemma PeriRowAt(c: RpPeriCalculator, s: int, m: nat, u: nat)
    requires Rank3(c.fr) && |c.sacIdxs| > 0 && -MaxShift <= s <= MaxShift
    requires NumTimes(c.fr) >= CentreStart + CentreLen + MaxShift
    ensures PeriRow(c, s, m, u).Ok? && |PeriRow(c, s, m, u).value| == CentreLen
    ensures forall t :: 0 <= t < CentreLen ==>
      PeriRow(c, s, m, u).value[t] == PeriValue(c, m, u, s, t)
  {
    var a := Slice(FrRow(c, u, m), CentreStart, CentreStart + CentreLen);
    var b := Slice(AverageRow(c, u), CentreStart + s, s + CentreStart + CentreLen);
    assert |a| == CentreLen && |b| == CentreLen;
  }

  /** In the full-window case (at least 105 bins, at least one unit) a result of
      calculate is (units, mixed trials, 35): the i-th mixed trial of the
      group is paired with firing-rate trial mixIdxs[i], and its row of unit
      u is that trial's centre window minus the saccade average read from
      35 + shift on. */
  lemma RpPeriShape(c: RpPeriCalculator, toBins: real -> int)
    requires Rank3(c.fr) && |c.sacIdxs| > 0 && RpPeriOf(c, toBins).Ok?
    requires NumTimes(c.fr) >= CentreStart + CentreLen + MaxShift && NumUnits(c.fr) > 0
    ensures var mixed := TrialsByType(c.trialGroup, Mixed);
      && RpPeriOf(c, toBins).value.shape == [NumUnits(c.fr), |mixed|, CentreLen]
      && |mixed| <= |c.mixIdxs|
      && forall i :: 0 <= i < |mixed| ==> mixed[i].events.MixedEvents? && c.mixIdxs[i] < NumTrials(c.fr)
  {
    var mixed := TrialsByType(c.trialGroup, Mixed);
    var all := AllPeri(c, toBins, mixed, |mixed|).value;
    assert RpPeriOf(c, toBins) == StackSwapped(all, NumUnits(c.fr));
    assert |mixed| > 0;
    forall i | 0 <= i < |mixed|
      ensures mixed[i].events.MixedEvents? && i < |c.mixIdxs| && c.mixIdxs[i] < NumTrials(c.fr)
    {
      assert TrialPeri(c, toBins, mixed[i], i) == Ok(all[i]);
      TrialPeriAt(c, toBins, mixed[i], i, 0, 0);
    }
    assert TrialPeri(c, toBins, mixed[0], 0) == Ok(all[0]);
    TrialPeriAt(c, toBins, mixed[0], 0, 0, 0);
  }

  /** A mixed trial that yields rows has its events and a valid firing-rate
      index, and in the full-window case its row of unit u is the centre window
      minus the snippet of the average shifted by the trial's shift. */
  lemma TrialPeriAt(c: RpPeriCalculator, toBins: real -> int, tr: Trial, trIdx: nat, u: nat, t: nat)
    requires Rank3(c.fr) && |c.sacIdxs| > 0 && TrialPeri(c, toBins, tr, trIdx).Ok?
    requires NumTimes(c.fr) >= CentreStart + CentreLen + MaxShift
    requires u < NumUnits(c.fr) && t < CentreLen
    ensures tr.events.MixedEvents? && trIdx < |c.mixIdxs| && c.mixIdxs[trIdx] < NumTrials(c.fr)
    ensures |TrialPeri(c, toBins, tr, trIdx).value[u]| == CentreLen
    ensures TrialPeri(c, toBins, tr, trIdx).value[u][t] == PeriValue(c, c.mixIdxs[trIdx], u, Shift(toBins, tr), t)
  {
    PeriRowAt(c, Shift(toBins, tr), c.mixIdxs[trIdx], u);
  }

  /** calculate's element (u, i, t), in the full-window case: mixed firing-rate
      trial mixIdxs[i] at 35 + t minus the saccade average at 35 + shift + t,
      the shift being that of the i-th mixed trial of the group. */
  lemma RpPeriAt(c: RpPeriCalculator, toBins: real -> int, u: nat, i: nat, t: nat)
    requires Rank3(c.fr) && |c.sacIdxs| > 0 && RpPeriOf(c, toBins).Ok?
    requires NumTimes(c.fr) >= CentreStart + CentreLen + MaxShift
    requires u < NumUnits(c.fr) && i < |TrialsByType(c.trialGroup, Mixed)| && t < CentreLen
    ensures TrialsByType(c.trialGroup, Mixed)[i].events.MixedEvents? && i < |c.mixIdxs|
    ensures Get(RpPeriOf(c, toBins).value, u, i, t)
         == PeriValue(c, c.mixIdxs[i], u, Shift(toBins, TrialsByType(c.trialGroup, Mixed)[i]), t)
  {
    var tr := TrialsByType(c.trialGroup, Mixed)[i];
    RpPeriIsTrialRows(c, toBins, u, i, t);
    TrialPeriAt(c, toBins, tr, i, u, t);
    var rows := TrialPeri(c, toBins, tr, i).value;
    var lhs := Get(RpPeriOf(c, toBins).value, u, i, t);
    assert lhs == rows[u][t];
    assert rows[u][t] == PeriValue(c, c.mixIdxs[i], u, Shift(toBins, tr), t);
  }

  /** Element (u, i, t) of calculate's result is element t of unit u's row
      of the i-th mixed trial. */
  lemma RpPeriIsTrialRows(c: RpPeriCalculator, toBins: real -> int, u: nat, i: nat, t: nat)
    requires Rank3(c.fr) && |c.sacIdxs| > 0 && RpPeriOf(c, toBins).Ok?
    requires NumTimes(c.fr) >= CentreStart + CentreLen + MaxShift
    requires u < NumUnits(c.fr) && i < |TrialsByType(c.trialGroup, Mixed)| && t < CentreLen
    ensures var tr := TrialsByType(c.trialGroup, Mixed)[i];
      && TrialPeri(c, toBins, tr, i).Ok?
      && u < |TrialPeri(c, toBins, tr, i).value| && t < |TrialPeri(c, toBins, tr, i).value[u]|
      && Get(RpPeriOf(c, toBins).value, u, i, t) == TrialPeri(c, toBins, tr, i).value[u][t]
  {
    var mixed := TrialsByType(c.trialGroup, Mixed);
    var all := AllPeri(c, toBins, mixed, |mixed|).value;
    assert TrialPeri(c, toBins, mixed[i], i) == Ok(all[i]);
    assert TrialPeri(c, toBins, mixed[0], 0) == Ok(all[0]);
    TrialPeriAt(c, toBins, mixed[i], i, u, t);
    TrialPeriAt(c, toBins, mixed[0], 0, 0, 0);
    AllPeriUniform(c, toBins, mixed, |mixed|);
    var stacked := StackSwapped(all, NumUnits(c.fr));
    assert RpPeriOf(c, toBins) == stacked;
    assert Get(stacked.value, u, i, t) == all[i][u][t];
  }

  /** All mixed trials up to n yield rows when each has its events and a
      valid firing-rate index, and the time axis is long enough. */
  lemma {:induction false} AllPeriOk(c: RpPeriCalculator, toBins: real -> int, mixed: seq<Trial>, n: nat)
    requires Rank3(c.fr) && |c.sacIdxs| > 0 && n <= |mixed|
    requires NumTimes(c.fr) >= CentreStart + CentreLen + MaxShift
    requires n <= |c.mixIdxs|
    requires forall i :: 0 <= i < n ==> mixed[i].events.MixedEvents? && c.mixIdxs[i] < NumTrials(c.fr)
    ensures AllPeri(c, toBins, mixed, n).Ok?
    ensures forall i :: 0 <= i < n && NumUnits(c.fr) > 0 ==>
      |AllPeri(c, toBins, mixed, n).value[i][0]| == CentreLen
  {
    if n > 0 {
      AllPeriOk(c, toBins, mixed, n - 1);
      var prev := AllPeri(c, toBins, mixed, n - 1).value;
      var s := Shift(toBins, mixed[n - 1]);
      PeriRowAt(c, s, c.mixIdxs[n - 1], 0);
      var rows := TrialPeri(c, toBins, mixed[n - 1], n - 1);
      assert rows.Ok?;
      assert AllPeri(c, toBins, mixed, n) == Ok(prev + [rows.value]);
      if NumUnits(c.fr) > 0 {
        assert rows.value[0] == PeriRow(c, s, c.mixIdxs[n - 1], 0).value;
      }
    }
  }

  /** In the full-window case calculate succeeds exactly when the saccade
      indices are valid, there is at least one mixed trial, every mixed
      trial carries its events, and each has a valid mixed firing-rate index. */
  lemma RpPeriOkIff(c: RpPeriCalculator, toBins: real -> int)
    requires Rank3(c.fr) && |c.sacIdxs| > 0
    requires NumTimes(c.fr) >= CentreStart + CentreLen + MaxShift && NumUnits(c.fr) > 0
    ensures var mixed := TrialsByType(c.trialGroup, Mixed);
      RpPeriOf(c, toBins).Ok? <==>
        && InRange(c.sacIdxs, NumTrials(c.fr))
        && 0 < |mixed| <= |c.mixIdxs|
        && forall i :: 0 <= i < |mixed| ==> mixed[i].events.MixedEvents? && c.mixIdxs[i] < NumTrials(c.fr)
  {
    var mixed := TrialsByType(c.trialGroup, Mixed);
    if RpPeriOf(c, toBins).Ok? {
      RpPeriShape(c, toBins);
    } else if InRange(c.sacIdxs, NumTrials(c.fr)) && 0 < |mixed| <= |c.mixIdxs|
              && forall i :: 0 <= i < |mixed| ==> mixed[i].events.MixedEvents? && c.mixIdxs[i] < NumTrials(c.fr) {
      AllPeriOk(c, toBins, mixed, |mixed|);
      assert false;
    }
  }

  /** A group without mixed trials makes calculate fail in swapaxes. */
  lemma NoMixedTrials(c: RpPeriCalculator, toBins: real -> int)
    requires Rank3(c.fr) && |c.sacIdxs| > 0 && InRange(c.sacIdxs, NumTrials(c.fr))
    requires TrialsByType(c.trialGroup, Mixed) == []
    ensures RpPeriOf(c, toBins) == Err(SwapAxesOnEmpty)
  {
  }

  /** A mixed trial whose shift is zero gets the same row from calculate as
      from calculate_static. */
  lemma ZeroShiftIsStatic(c: RpPeriCalculator, toBins: real -> int, u: nat, i: nat, t: nat)
    requires Rank3(c.fr) && |c.sacIdxs| > 0
    requires RpPeriOf(c, toBins).Ok? && CalculateStatic(c).Ok?
    requires NumTimes(c.fr) >= CentreStart + CentreLen + MaxShift
    requires u < NumUnits(c.fr) && i < |TrialsByType(c.trialGroup, Mixed)| && t < CentreLen
    requires TrialsByType(c.trialGroup, Mixed)[i].events.MixedEvents?
    requires Shift(toBins, TrialsByType(c.trialGroup, Mixed)[i]) == 0
    ensures i < |c.mixIdxs|
    ensures Get(RpPeriOf(c, toBins).value, u, i, t) == Get(CalculateStatic(c).value, u, i, t)
  {
    RpPeriAt(c, toBins, u, i, t);
    CalculateStaticAt(c, u, i, t);
  }

  /** A trial that calculate's combine step emits labelled mixed always has
      its events: demixing only labels a probe mixed when it merges it with a
      saccade, and the latency filter passes saccade trials only. */
  lemma CombinedMixedHaveEvents(probes: seq<Trial>, sacs: seq<Trial>, k: nat)
    requires forall i :: 0 <= i < |probes| ==> probes[i].trialLabel == Probe
    requires forall i :: 0 <= i < |sacs| ==> sacs[i].trialLabel == Saccade
    requires k < |Demix(probes, sacs, false) + PassingSaccades(sacs, probes)|
    requires (Demix(probes, sacs, false) + PassingSaccades(sacs, probes))[k].trialLabel == Mixed
    ensures (Demix(probes, sacs, false) + PassingSaccades(sacs, probes))[k].events.MixedEvents?
  {
    var combined := Demix(probes, sacs, false) + PassingSaccades(sacs, probes);
    DemixOnePerProbe(probes, sacs, |probes|);
    if k < |probes| {
      assert combined[k] == DemixProbe(probes[k], sacs);
    } else {
      // a passing saccade keeps its saccade label
      var sel := PassingSaccadesSelection(sacs, probes);
      assert false;
    }
  }

  /** Every mixed trial of the group calculate builds carries its events,
      so reading them never fails for such a group. */
  lemma GroupMixedTrialsHaveEvents(probes: seq<Trial>, sacs: seq<Trial>)
    requires forall i :: 0 <= i < |probes| ==> probes[i].trialLabel == Probe
    requires forall i :: 0 <= i < |sacs| ==> sacs[i].trialLabel == Saccade
    ensures forall i :: 0 <= i < |TrialsByType(GroupOf(probes, sacs), Mixed)| ==>
      TrialsByType(GroupOf(probes, sacs), Mixed)[i].events.MixedEvents?
  {
    var combined := Demix(probes, sacs, false) + PassingSaccades(sacs, probes);
    var g := GroupOf(probes, sacs).trials;
    var mixed := TrialsByType(GroupOf(probes, sacs), Mixed);
    SortByTimeIsSortedPermutation(combined);
    forall i | 0 <= i < |mixed| ensures mixed[i].events.MixedEvents? {
      assert mixed[i] in multiset(mixed);
      assert mixed[i] in multiset(g);
      assert mixed[i] in multiset(combined);
      var k :| 0 <= k < |combined| && combined[k] == mixed[i];
      CombinedMixedHaveEvents(probes, sacs, k);
    }
  }

  /** The trial group of a processor, when it is built, has no mixed trial
      without events. */
  lemma ProcessorMixedTrialsHaveEvents(p: Processor)
    requires p.Valid() && TrialGroupOf(p).Ok?
    ensures forall i :: 0 <= i < |TrialsByType(TrialGroupOf(p).value, Mixed)| ==>
      TrialsByType(TrialGroupOf(p).value, Mixed)[i].events.MixedEvents?
  {
    var probes := ProbeTrials(p).value;
    var sacs := SaccadeTrials(p).value;
    forall i | 0 <= i < |probes| ensures probes[i].trialLabel == Probe {
      assert AlignEvent(p.firingRateBins, p.probeTimings[i], p.probeMotions[i], p.probeBlocks[i], Probe)
             == Ok(probes[i]);
    }
    forall i | 0 <= i < |sacs| ensures sacs[i].trialLabel == Saccade {
      assert AlignEvent(p.firingRateBins, p.saccadeTimings[i], p.saccadeMotions[i], p.saccadeBlocks[i], Saccade)
             == Ok(sacs[i]);
    }
    GroupMixedTrialsHaveEvents(probes, sacs);
  }
}
