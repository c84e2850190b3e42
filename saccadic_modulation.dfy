/** SaccadicModulationTrialProcessor: aligns probe and saccade timestamps to
    firing-rate bins, filters saccades that lie too close to a probe, merges
    each probe with the first saccade that collides with it, and sorts the
    result into a trial group. */
module SaccadicModulation {
  import opened Common
  import opened Trials

  /** Bins before the event bin in a trial window (-200 ms at 20 ms bins). */
  const WindowBefore: int := 10
  /** Bins after the event bin in a trial window (+500 ms at 20 ms bins). */
  const WindowAfter: int := 25
  /** A saccade this many bins or fewer before a probe is too close to it. */
  const SacProbeLatency: int := 10
  /** A saccade fewer than this many bins at or after a probe is too close to it. */
  const ProbeSacLatency: int := 20
  /** A probe and a saccade at most this many seconds apart collide. */
  const CollisionWindow: real := 0.51

  /** The event streams a processor is built from. The grating direction and
      window arrays it also stores are never read by the core. */
  datatype Processor = Processor(
    firingRateBins: seq<real>,
    saccadeTimings: seq<real>, saccadeMotions: seq<int>, saccadeBlocks: seq<int>,
    probeTimings: seq<real>, probeMotions: seq<int>, probeBlocks: seq<int>)
  {
    /** What the constructor's two assertions establish. */
    predicate Valid() {
      && |saccadeTimings| == |saccadeMotions| == |saccadeBlocks|
      && |probeTimings| == |probeMotions| == |probeBlocks|
    }
  }

  /** SaccadicModulationTrialProcessor.__init__: the saccade arrays must have
      equal length, and so must the probe arrays. */
  function NewProcessor(bins: seq<real>,
                        sacTimings: seq<real>, sacMotions: seq<int>, sacBlocks: seq<int>,
                        probeTimings: seq<real>, probeMotions: seq<int>, probeBlocks: seq<int>)
    : (r: Result<Processor>)
    ensures r.Ok? <==> (|sacTimings| == |sacMotions| == |sacBlocks|
                        && |probeTimings| == |probeMotions| == |probeBlocks|)
    ensures r.Err? ==> r.error == LengthMismatch
    ensures r.Ok? ==> r.value.Valid()
    ensures r.Ok? ==> r.value == Processor(bins, sacTimings, sacMotions, sacBlocks,
                                           probeTimings, probeMotions, probeBlocks)
  {
    if !(|sacTimings| == |sacMotions| == |sacBlocks|) then Err(LengthMismatch)
    else if !(|probeTimings| == |probeMotions| == |probeBlocks|) then Err(LengthMismatch)
    else Ok(Processor(bins, sacTimings, sacMotions, sacBlocks, probeTimings, probeMotions, probeBlocks))
  }

  // ---------------------------------------------------------------------
  // Bins: numpy.histogram of one timestamp over the firing-rate bin edges

  /** numpy.histogram accepts the edges: they never decrease. */
  predicate Monotone(edges: seq<real>) {
    forall i :: 0 < i < |edges| ==> edges[i - 1] <= edges[i]
  }

  /** numpy.histogram counts x in bin i: [e_i, e_{i+1}), except that the last
      bin also holds its right edge. */
  predicate InBin(edges: seq<real>, i: nat, x: real)
    requires i + 1 < |edges|
  {
    edges[i] <= x && (x < edges[i + 1] || (i + 2 == |edges| && x == edges[i + 1]))
  }

  /** The first bin at or after i whose count for x is non-zero. */
  function BinFrom(edges: seq<real>, x: real, i: nat): (r: Option<nat>)
    decreases |edges| - i
    ensures r.Some? ==> i <= r.value && r.value + 1 < |edges| && InBin(edges, r.value, x)
                        && forall k :: i <= k < r.value ==> !InBin(edges, k, x)
    ensures r.None? ==> forall k :: i <= k && k + 1 < |edges| ==> !InBin(edges, k, x)
  {
    if i + 1 >= |edges| then None
    else if InBin(edges, i, x) then Some(i)
    else BinFrom(edges, x, i + 1)
  }

  /** np.where(hist)[0][0]: the bin holding x, if any. */
  function BinOf(edges: seq<real>, x: real): Option<nat> {
    BinFrom(edges, x, 0)
  }

  lemma {:induction false} MonotoneOrdered(edges: seq<real>, i: nat, j: nat)
    requires Monotone(edges) && i <= j < |edges|
    ensures edges[i] <= edges[j]
  {
    if i < j {
      MonotoneOrdered(edges, i, j - 1);
    }
  }

  /** With edges numpy accepts, a timestamp falls in at most one bin, so the
      histogram has at most one non-zero count. */
  lemma InBinUnique(edges: seq<real>, i: nat, j: nat, x: real)
    requires Monotone(edges) && i + 1 < |edges| && j + 1 < |edges|
    requires InBin(edges, i, x) && InBin(edges, j, x)
    ensures i == j
  {
    if i < j {
      MonotoneOrdered(edges, i + 1, j);
    } else if j < i {
      MonotoneOrdered(edges, j + 1, i);
    }
  }

  /** The bin found is the only bin holding x. */
  lemma {:induction false} BinOfIsTheBin(edges: seq<real>, x: real, k: nat)
    requires Monotone(edges) && k + 1 < |edges|
    ensures InBin(edges, k, x) <==> BinOf(edges, x) == Some(k)
  {
    var b := BinOf(edges, x);
    if InBin(edges, k, x) {
      assert b.Some?;
      InBinUnique(edges, k, b.value, x);
    }
  }

  // ---------------------------------------------------------------------
  // _process_timings

  /** One event aligned to its bin k: the window [k - 10, k + 25] around it.
      numpy rejects decreasing edges; a timestamp in no bin is an error, and,
      because the code tests the truth value of the one-element index array,
      so is a timestamp in bin 0. */
  function AlignEvent(bins: seq<real>, x: real, motion: int, block: int, lbl: Label): (r: Result<Trial>)
    ensures r.Ok? <==> Monotone(bins) && exists k: nat :: 1 <= k && k + 1 < |bins| && InBin(bins, k, x)
    ensures r.Err? ==> r.error == (if Monotone(bins) then NotEnoughRecording else BinsNotMonotonic)
    ensures r.Ok? ==> var t := r.value;
      && t.eventIdx >= 1 && t.eventIdx + 1 < |bins| && InBin(bins, t.eventIdx, x)
      && t.startIdx == t.eventIdx - WindowBefore && t.endIdx == t.eventIdx + WindowAfter
      && t == Trial(t.startIdx, t.endIdx, t.eventIdx, x, lbl, motion, block, NoEvents)
  {
    if !Monotone(bins) then Err(BinsNotMonotonic)
    else match BinOf(bins, x)
      case None => Err(NotEnoughRecording)
      case Some(k) =>
        if k == 0 then
          (assert forall k': nat :: 1 <= k' && k' + 1 < |bins| ==> !InBin(bins, k', x) by {
             forall k': nat | 1 <= k' && k' + 1 < |bins| ensures !InBin(bins, k', x) {
               BinOfIsTheBin(bins, x, k');
             }
           }
           Err(NotEnoughRecording))
        else Ok(Trial(k - WindowBefore, k + WindowAfter, k, x, lbl, motion, block, NoEvents))
  }

  /** The first n events aligned, or the error of the first that fails. */
  function AlignEvents(bins: seq<real>, timings: seq<real>, motions: seq<int>, blocks: seq<int>,
                       lbl: Label, n: nat): (r: Result<seq<Trial>>)
    requires n <= |timings| && n <= |motions| && n <= |blocks|
    ensures r.Ok? ==> |r.value| == n
    ensures r.Ok? ==> forall i :: 0 <= i < n ==>
      AlignEvent(bins, timings[i], motions[i], blocks[i], lbl) == Ok(r.value[i])
  {
    if n == 0 then Ok([])
    else
      var prev := AlignEvents(bins, timings, motions, blocks, lbl, n - 1);
      if prev.Err? then Err(prev.error)
      else
        var ev := AlignEvent(bins, timings[n - 1], motions[n - 1], blocks[n - 1], lbl);
        if ev.Err? then Err(ev.error) else Ok(prev.value + [ev.value])
  }

  /** Once an event fails, the later events do not change the error. */
  lemma {:induction false} AlignEventsFirstErrorWins(bins: seq<real>, timings: seq<real>, motions: seq<int>,
                                                     blocks: seq<int>, lbl: Label, m: nat, n: nat)
    requires m <= n <= |timings| && n <= |motions| && n <= |blocks|
    requires AlignEvents(bins, timings, motions, blocks, lbl, m).Err?
    ensures AlignEvents(bins, timings, motions, blocks, lbl, n) == AlignEvents(bins, timings, motions, blocks, lbl, m)
  {
    if m < n {
      AlignEventsFirstErrorWins(bins, timings, motions, blocks, lbl, m, n - 1);
    }
  }

  /** The alignment fails exactly when some event of the first n fails, and
      then with the error of the earliest such event. */
  lemma {:induction false} AlignEventsErrIff(bins: seq<real>, timings: seq<real>, motions: seq<int>,
                                             blocks: seq<int>, lbl: Label, n: nat)
    requires n <= |timings| && n <= |motions| && n <= |blocks|
    ensures AlignEvents(bins, timings, motions, blocks, lbl, n).Err? <==>
      exists i :: 0 <= i < n && AlignEvent(bins, timings[i], motions[i], blocks[i], lbl).Err?
    ensures forall i :: 0 <= i < n && AlignEvent(bins, timings[i], motions[i], blocks[i], lbl).Err?
                        && (forall k :: 0 <= k < i ==> AlignEvent(bins, timings[k], motions[k], blocks[k], lbl).Ok?) ==>
      AlignEvents(bins, timings, motions, blocks, lbl, n) == Err(AlignEvent(bins, timings[i], motions[i], blocks[i], lbl).error)
  {
    if n > 0 {
      AlignEventsErrIff(bins, timings, motions, blocks, lbl, n - 1);
      var last := AlignEvent(bins, timings[n - 1], motions[n - 1], blocks[n - 1], lbl);
      if AlignEvents(bins, timings, motions, blocks, lbl, n - 1).Ok? && last.Err? {
        assert AlignEvents(bins, timings, motions, blocks, lbl, n).Err?;
      }
    }
  }

  /** _process_timings: one trial per timestamp, in input order. */
  method ProcessTimings(bins: seq<real>, timings: seq<real>, motions: seq<int>, blocks: seq<int>,
                        lbl: Label) returns (r: Result<seq<Trial>>)
    requires |timings| <= |motions| && |timings| <= |blocks|
    ensures r == AlignEvents(bins, timings, motions, blocks, lbl, |timings|)
  {
    var trs: seq<Trial> := [];
    for idx := 0 to |timings|
      invariant AlignEvents(bins, timings, motions, blocks, lbl, idx) == Ok(trs)
    {
      var tr := AlignOne(bins, timings[idx], motions[idx], blocks[idx], lbl);
      if tr.Err? {
        AlignEventsFirstErrorWins(bins, timings, motions, blocks, lbl, idx + 1, |timings|);
        return Err(tr.error);
      }
      assert AlignEvents(bins, timings, motions, blocks, lbl, idx + 1) == Ok(trs + [tr.value]);
      trs := trs + [tr.value];
    }
    return Ok(trs);
  }

  /** One pass of _process_timings' loop: the histogram of the timestamp
      against the bin edges, the index of its non-zero count, and the window
      around it. */
  method AlignOne(bins: seq<real>, x: real, mot: int, block: int, lbl: Label) returns (r: Result<Trial>)
    ensures r == AlignEvent(bins, x, mot, block, lbl)
  {
    if !Monotone(bins) {
      return Err(BinsNotMonotonic);
    }
    var whereMyVal := BinOf(bins, x);
    if whereMyVal.None? || whereMyVal.value == 0 {
      return Err(NotEnoughRecording);
    }
    var firingRateIdx := whereMyVal.value;
    var startIdx := firingRateIdx - WindowBefore;
    var endIdx := firingRateIdx + WindowAfter;
    var eventIdx := firingRateIdx;
    return Ok(Trial(startIdx, endIdx, eventIdx, x, lbl, mot, block, NoEvents));
  }

  /** A timestamp in the first bin is rejected although a bin holds it. */
  lemma BinZeroIsRejected(bins: seq<real>, x: real, motion: int, block: int, lbl: Label)
    requires 2 <= |bins| && InBin(bins, 0, x)
    ensures AlignEvent(bins, x, motion, block, lbl).Err?
  {
    if Monotone(bins) {
      forall k: nat | 1 <= k && k + 1 < |bins| ensures !InBin(bins, k, x) {
        if InBin(bins, k, x) { InBinUnique(bins, 0, k, x); }
      }
    }
  }

  // ---------------------------------------------------------------------
  // _filter_saccades_by_time

  /** The saccade is far enough from the probe: at least 10 bins before it or
      at least 20 bins after it. */
  predicate FarFromProbe(sac: Trial, probe: Trial) {
    var diff := sac.eventIdx - probe.eventIdx;
    diff <= -SacProbeLatency || diff >= ProbeSacLatency
  }

  predicate FarFromAllProbes(sac: Trial, probes: seq<Trial>) {
    forall k :: 0 <= k < |probes| ==> FarFromProbe(sac, probes[k])
  }

  /** Which saccade indices the latency filter keeps. */
  function PassFlags(sacs: seq<Trial>, probes: seq<Trial>): nat -> bool {
    (j: nat) => j < |sacs| && FarFromAllProbes(sacs[j], probes)
  }

  /** The saccades far enough from every probe, in saccade order. */
  function PassingSaccades(sacs: seq<Trial>, probes: seq<Trial>): seq<Trial> {
    Keep(sacs, PassFlags(sacs, probes), |sacs|)
  }

  /** _filter_saccades_by_time */
  method FilterSaccadesByTime(sacs: seq<Trial>, probes: seq<Trial>) returns (passing: seq<Trial>)
    ensures passing == PassingSaccades(sacs, probes)
  {
    passing := [];
    for s := 0 to |sacs|
      invariant passing == Keep(sacs, PassFlags(sacs, probes), s)
    {
      var saccadeTrial := sacs[s];
      var sacPasses := true;
      var p := 0;
      while p < |probes|
        invariant 0 <= p <= |probes|
        invariant forall k :: 0 <= k < p ==> FarFromProbe(saccadeTrial, probes[k])
      {
        var diff := saccadeTrial.eventIdx - probes[p].eventIdx;
        if diff < 0 {  // saccade before the probe
          if Abs(diff) < SacProbeLatency {
            sacPasses := false;
            break;
          }
        } else {       // saccade at or after the probe
          if diff < ProbeSacLatency {
            sacPasses := false;
            break;
          }
        }
        p := p + 1;
      }
      assert sacPasses <==> FarFromAllProbes(saccadeTrial, probes);
      if sacPasses {
        passing := passing + [saccadeTrial];
      }
    }
  }

  /** The filter returns the saccades that pass, in their original order:
      a strictly increasing selection of saccade positions that holds exactly
      the positions whose saccade lies at least 10 bins before or at least 20
      bins after every probe. */
  lemma PassingSaccadesSelection(sacs: seq<Trial>, probes: seq<Trial>) returns (idx: seq<nat>)
    ensures |idx| == |PassingSaccades(sacs, probes)|
    ensures forall i :: 0 <= i < |idx| ==> idx[i] < |sacs| && PassingSaccades(sacs, probes)[i] == sacs[idx[i]]
    ensures forall i, j :: 0 <= i < j < |idx| ==> idx[i] < idx[j]
    ensures forall j :: 0 <= j < |sacs| ==>
      (j in idx <==> forall k :: 0 <= k < |probes| ==>
         sacs[j].eventIdx - probes[k].eventIdx >= 20 || probes[k].eventIdx - sacs[j].eventIdx >= 10)
  {
    idx := KeepIsOrderedSelection(sacs, PassFlags(sacs, probes), |sacs|);
  }

  // ---------------------------------------------------------------------
  // _demix_trials

  /** A probe and a saccade collide when at most 0.51 s apart. */
  predicate Collides(probe: Trial, sac: Trial) {
    AbsReal(sac.eventTime - probe.eventTime) <= CollisionWindow
  }

  /** The first saccade at or after index i that collides with the probe. */
  function FirstCollisionFrom(probe: Trial, sacs: seq<Trial>, i: nat): (r: Option<nat>)
    decreases |sacs| - i
    ensures r.Some? ==> i <= r.value < |sacs| && Collides(probe, sacs[r.value])
                        && forall k :: i <= k < r.value ==> !Collides(probe, sacs[k])
    ensures r.None? ==> forall k :: i <= k < |sacs| ==> !Collides(probe, sacs[k])
  {
    if i >= |sacs| then None
    else if Collides(probe, sacs[i]) then Some(i)
    else FirstCollisionFrom(probe, sacs, i + 1)
  }

  function FirstCollision(probe: Trial, sacs: seq<Trial>): Option<nat> {
    FirstCollisionFrom(probe, sacs, 0)
  }

  /** The mixed trial: the probe's window, time, motion and block, with both
      events recorded. */
  function MergeMixed(probe: Trial, sac: Trial): Trial {
    Trial(probe.startIdx, probe.endIdx, probe.eventIdx, probe.eventTime, Mixed, probe.motion, probe.block,
          MixedEvents(probe.startIdx, probe.eventIdx, probe.endIdx, probe.eventTime,
                      sac.startIdx, sac.eventIdx, sac.endIdx, sac.eventTime))
  }

  /** What one probe becomes: merged with its first colliding saccade, or
      left as it is. */
  function DemixProbe(probe: Trial, sacs: seq<Trial>): Trial {
    match FirstCollision(probe, sacs)
    case Some(j) => MergeMixed(probe, sacs[j])
    case None => probe
  }

  /** The demixed trials of the first n probes, in probe order. */
  function DemixProbes(probes: seq<Trial>, sacs: seq<Trial>, n: nat): seq<Trial>
    requires n <= |probes|
  {
    if n == 0 then [] else DemixProbes(probes, sacs, n - 1) + [DemixProbe(probes[n - 1], sacs)]
  }

  /** Saccade j was the first collision of one of the first n probes. */
  predicate ConsumedBy(probes: seq<Trial>, sacs: seq<Trial>, j: nat, n: nat)
    requires n <= |probes|
  {
    exists k :: 0 <= k < n && FirstCollision(probes[k], sacs) == Some(j)
  }

  function UnconsumedFlags(probes: seq<Trial>, sacs: seq<Trial>): nat -> bool {
    (j: nat) => !ConsumedBy(probes, sacs, j, |probes|)
  }

  /** The saccades no probe merged with, in saccade order. */
  function Unconsumed(probes: seq<Trial>, sacs: seq<Trial>): seq<Trial> {
    Keep(sacs, UnconsumedFlags(probes, sacs), |sacs|)
  }

  /** _demix_trials: every probe in order, then (when asked) the saccades no
      probe merged with. */
  function Demix(probes: seq<Trial>, sacs: seq<Trial>, addSaccades: bool): seq<Trial> {
    DemixProbes(probes, sacs, |probes|) + (if addSaccades then Unconsumed(probes, sacs) else [])
  }

  /** _demix_trials. The saccade scan stops at the first collision, so a
      probe never counts more than one collision and the duplicate branch is
      dead: no probe is dropped. */
  method DemixTrials(probes: seq<Trial>, sacs: seq<Trial>, addSaccades: bool) returns (demixed: seq<Trial>)
    ensures demixed == Demix(probes, sacs, addSaccades)
  {
    demixed := [];
    var foundSac: map<nat, bool> := map i | i in Iota(|sacs|) :: false;
    var numDuplicates := 0;
    forall j: nat ensures j in foundSac <==> j < |sacs| {
      if j < |sacs| { assert Iota(|sacs|)[j] == j; }
    }

    for p := 0 to |probes|
      invariant demixed == DemixProbes(probes, sacs, p)
      invariant numDuplicates == 0
      invariant forall j: nat :: j in foundSac <==> j < |sacs|
      invariant forall j: nat :: j < |sacs| ==> (foundSac[j] <==> ConsumedBy(probes, sacs, j, p))
    {
      var probeTr := probes[p];
      var probeStart := probeTr.startIdx;
      var probeEnd := probeTr.endIdx;
      var numCollisions := 0;
      var mixedTr: Option<Trial> := None;
      ghost var foundBefore := foundSac;

      var s := 0;
      while s < |sacs|
        invariant 0 <= s <= |sacs|
        invariant numCollisions == 0 && mixedTr == None && foundSac == foundBefore
        invariant forall k :: 0 <= k < s ==> !Collides(probeTr, sacs[k])
      {
        var sacTr := sacs[s];
        if AbsReal(sacTr.eventTime - probeTr.eventTime) <= CollisionWindow {
          numCollisions := numCollisions + 1;
          foundSac := foundSac[s := true];
          mixedTr := Some(Trial(probeStart, probeEnd, probeTr.eventIdx, probeTr.eventTime, Mixed,
                                probeTr.motion, probeTr.block,
                                MixedEvents(probeStart, probeTr.eventIdx, probeEnd, probeTr.eventTime,
                                            sacTr.startIdx, sacTr.eventIdx, sacTr.endIdx, sacTr.eventTime)));
          if numCollisions >= 1 {
            break;
          }
        }
        s := s + 1;
      }

      if numCollisions == 1 {
        assert FirstCollision(probeTr, sacs) == Some(s);
        demixed := demixed + [mixedTr.value];
      } else if numCollisions == 0 {
        demixed := demixed + [probeTr];
      } else {
        // the scan above stops at the first collision
        assert false;
        numDuplicates := numDuplicates + 1;
      }
      forall j: nat | j < |sacs| ensures foundSac[j] <==> ConsumedBy(probes, sacs, j, p + 1) {
        if FirstCollision(probeTr, sacs) == Some(j) {
          assert ConsumedBy(probes, sacs, j, p + 1);
        }
      }
    }

    if addSaccades {
      demixed := AppendUnconsumed(probes, sacs, foundSac, demixed);
    }
  }

  /** The tail of _demix_trials: the saccades whose found flag is still
      unset, appended in saccade order. */
  method AppendUnconsumed(probes: seq<Trial>, sacs: seq<Trial>, foundSac: map<nat, bool>, demixed: seq<Trial>)
    returns (r: seq<Trial>)
    requires forall j: nat :: j < |sacs| ==> j in foundSac && (foundSac[j] <==> ConsumedBy(probes, sacs, j, |probes|))
    ensures r == demixed + Unconsumed(probes, sacs)
  {
    r := demixed;
    for idx := 0 to |sacs|
      invariant r == demixed + Keep(sacs, UnconsumedFlags(probes, sacs), idx)
    {
      if !foundSac[idx] {
        r := r + [sacs[idx]];
      }
    }
  }

  /** With add_saccades off, exactly one trial per probe, in probe order: no
      probe is dropped as a duplicate. */
  lemma {:induction false} DemixOnePerProbe(probes: seq<Trial>, sacs: seq<Trial>, n: nat)
    requires n <= |probes|
    ensures |DemixProbes(probes, sacs, n)| == n
    ensures forall i :: 0 <= i < n ==> DemixProbes(probes, sacs, n)[i] == DemixProbe(probes[i], sacs)
  {
    if n > 0 {
      DemixOnePerProbe(probes, sacs, n - 1);
    }
  }

  /** A probe becomes mixed exactly when some saccade collides with it. The
      trial keeps the probe's window, event bin, time, motion and block; a
      mixed trial records the probe and the first colliding saccade in list
      order, and a probe without collision is passed through unchanged. */
  lemma DemixProbeCharacterized(probe: Trial, sacs: seq<Trial>)
    requires probe.trialLabel != Mixed
    ensures var t := DemixProbe(probe, sacs);
      && (t.trialLabel == Mixed <==> exists j :: 0 <= j < |sacs| && Collides(probe, sacs[j]))
      && t.startIdx == probe.startIdx && t.endIdx == probe.endIdx && t.eventIdx == probe.eventIdx
      && t.eventTime == probe.eventTime && t.motion == probe.motion && t.block == probe.block
      && (t.trialLabel != Mixed ==> t == probe)
      && (t.trialLabel == Mixed ==> exists j ::
            && 0 <= j < |sacs| && Collides(probe, sacs[j])
            && (forall k :: 0 <= k < j ==> !Collides(probe, sacs[k]))
            && t.events == MixedEvents(probe.startIdx, probe.eventIdx, probe.endIdx, probe.eventTime,
                                       sacs[j].startIdx, sacs[j].eventIdx, sacs[j].endIdx, sacs[j].eventTime))
  {
    var first := FirstCollision(probe, sacs);
    if first.Some? {
      var j := first.value;
      assert Collides(probe, sacs[j]);
    }
  }

  /** Demix completeness: when every input is a probe trial, each probe is
      emitted either as a probe or as a mixed trial, so the two kinds
      together number exactly the probes. */
  lemma DemixCountsAddUp(probes: seq<Trial>, sacs: seq<Trial>)
    requires forall i :: 0 <= i < |probes| ==> probes[i].trialLabel == Probe
    ensures |LabelFilter(Demix(probes, sacs, false), Probe)|
          + |LabelFilter(Demix(probes, sacs, false), Mixed)| == |probes|
    ensures LabelFilter(Demix(probes, sacs, false), Saccade) == []
  {
    var d := Demix(probes, sacs, false);
    DemixOnePerProbe(probes, sacs, |probes|);
    assert d == DemixProbes(probes, sacs, |probes|);
    forall i | 0 <= i < |d| ensures d[i].trialLabel == Probe || d[i].trialLabel == Mixed {
      assert d[i] == DemixProbe(probes[i], sacs);
    }
    LabelFilterProbeMixed(d);
  }

  /** With add_saccades on, the saccades no probe merged with follow the
      probe-derived trials, in saccade index order, and they are exactly the
      saccades that were never a probe's first collision. */
  lemma DemixAppendsUnconsumed(probes: seq<Trial>, sacs: seq<Trial>) returns (idx: seq<nat>)
    ensures |Demix(probes, sacs, false)| == |probes|
    ensures Demix(probes, sacs, true)[..|probes|] == Demix(probes, sacs, false)
    ensures Demix(probes, sacs, true)[|probes|..] == Unconsumed(probes, sacs)
    ensures |idx| == |Unconsumed(probes, sacs)|
    ensures forall i :: 0 <= i < |idx| ==> idx[i] < |sacs| && Unconsumed(probes, sacs)[i] == sacs[idx[i]]
    ensures forall i, j :: 0 <= i < j < |idx| ==> idx[i] < idx[j]
    ensures forall j :: 0 <= j < |sacs| ==>
      (j in idx <==> forall k :: 0 <= k < |probes| ==> FirstCollision(probes[k], sacs) != Some(j))
  {
    DemixOnePerProbe(probes, sacs, |probes|);
    idx := KeepIsOrderedSelection(sacs, UnconsumedFlags(probes, sacs), |sacs|);
  }

  /** The worked case: a probe at 0.0 s with saccades at 0.3 s and 10.0 s
      yields one mixed trial, merged with the 0.3 s saccade. */
  lemma DemixExample(probe: Trial, near: Trial, far: Trial)
    requires probe.eventTime == 0.0 && near.eventTime == 0.3 && far.eventTime == 10.0
    ensures |Demix([probe], [near, far], false)| == 1
    ensures Demix([probe], [near, far], false)[0].trialLabel == Mixed
    ensures Demix([probe], [near, far], false)[0].events.saccadeTime == 0.3
  {
    assert FirstCollision(probe, [near, far]) == Some(0);
    assert DemixProbes([probe], [near, far], 1) == [MergeMixed(probe, near)];
  }

  // ---------------------------------------------------------------------
  // calculate

  /** The saccade trials of the processor's saccade stream. */
  function SaccadeTrials(p: Processor): Result<seq<Trial>>
    requires p.Valid()
  {
    AlignEvents(p.firingRateBins, p.saccadeTimings, p.saccadeMotions, p.saccadeBlocks,
                Saccade, |p.saccadeTimings|)
  }

  /** The probe trials of the processor's probe stream. */
  function ProbeTrials(p: Processor): Result<seq<Trial>>
    requires p.Valid()
  {
    AlignEvents(p.firingRateBins, p.probeTimings, p.probeMotions, p.probeBlocks,
                Probe, |p.probeTimings|)
  }

  /** The demixed probe trials and the latency-filtered saccades, sorted by
      event time. */
  function GroupOf(probes: seq<Trial>, sacs: seq<Trial>): TrialGroup {
    TrialGroup(SortByTime(Demix(probes, sacs, false) + PassingSaccades(sacs, probes)))
  }

  /** The trial group calculate builds: saccade timestamps are aligned first,
      then probe timestamps (the first error wins). */
  function TrialGroupOf(p: Processor): Result<TrialGroup>
    requires p.Valid()
  {
    var sac := SaccadeTrials(p);
    var probe := ProbeTrials(p);
    if sac.Err? then Err(sac.error)
    else if probe.Err? then Err(probe.error)
    else Ok(GroupOf(probe.value, sac.value))
  }

  /** The combine-and-sort tail of calculate: the saccades that pass the
      latency filter, the demixed probes (without unconsumed saccades), one
      list holding the demixed trials then the passing saccades, sorted. */
  method BuildGroup(probeTrials: seq<Trial>, saccadeTrials: seq<Trial>) returns (g: TrialGroup)
    ensures g == GroupOf(probeTrials, saccadeTrials)
  {
    var filtSacTrials := FilterSaccadesByTime(saccadeTrials, probeTrials);
    var demixedTrials := DemixTrials(probeTrials, saccadeTrials, false);
    var combined: seq<Trial> := [];
    combined := combined + demixedTrials;
    assert combined == demixedTrials;
    combined := combined + filtSacTrials;
    var allTrials := SortByTime(combined);
    return TrialGroup(allTrials);
  }

  /** SaccadicModulationTrialProcessor.calculate, without its result cache. */
  method Calculate(p: Processor) returns (r: Result<TrialGroup>)
    requires p.Valid()
    ensures r == TrialGroupOf(p)
  {
    var sacResult := ProcessTimings(p.firingRateBins, p.saccadeTimings, p.saccadeMotions,
                                    p.saccadeBlocks, Saccade);
    if sacResult.Err? {
      return Err(sacResult.error);
    }
    var probeResult := ProcessTimings(p.firingRateBins, p.probeTimings, p.probeMotions,
                                      p.probeBlocks, Probe);
    if probeResult.Err? {
      return Err(probeResult.error);
    }
    var g := BuildGroup(probeResult.value, sacResult.value);
    return Ok(g);
  }

  /** A trial spans the window [event - 10, event + 25]. */
  predicate Windowed(t: Trial) {
    t.endIdx - t.startIdx == WindowBefore + WindowAfter && t.eventIdx - t.startIdx == WindowBefore
  }

  /** Every aligned trial has the standard window. */
  lemma AlignedAreWindowed(bins: seq<real>, timings: seq<real>, motions: seq<int>, blocks: seq<int>,
                           lbl: Label, n: nat)
    requires n <= |timings| && n <= |motions| && n <= |blocks|
    requires AlignEvents(bins, timings, motions, blocks, lbl, n).Ok?
    ensures forall i :: 0 <= i < n ==> Windowed(AlignEvents(bins, timings, motions, blocks, lbl, n).value[i])
  {
  }

  /** Demixing and filtering keep every trial windowed. */
  lemma CombinedWindowed(probes: seq<Trial>, sacs: seq<Trial>)
    requires forall i :: 0 <= i < |probes| ==> Windowed(probes[i])
    requires forall i :: 0 <= i < |sacs| ==> Windowed(sacs[i])
    ensures var c := Demix(probes, sacs, false) + PassingSaccades(sacs, probes);
      forall i :: 0 <= i < |c| ==> Windowed(c[i])
  {
    var passing := PassingSaccades(sacs, probes);
    var d := Demix(probes, sacs, false);
    DemixOnePerProbe(probes, sacs, |probes|);
    var sel := PassingSaccadesSelection(sacs, probes);
    forall i | 0 <= i < |d| ensures Windowed(d[i]) {
      assert d[i] == DemixProbe(probes[i], sacs);
    }
    forall i | 0 <= i < |passing| ensures Windowed(passing[i]) {
      assert passing[i] == sacs[sel[i]];
    }
  }

  /** A reordering of windowed trials is windowed. */
  lemma PermutationWindowed(a: seq<Trial>, b: seq<Trial>)
    requires multiset(a) == multiset(b)
    requires forall i :: 0 <= i < |a| ==> Windowed(a[i])
    ensures forall i :: 0 <= i < |b| ==> Windowed(b[i])
  {
    forall i | 0 <= i < |b| ensures Windowed(b[i]) {
      assert b[i] in multiset(a);
      var k :| 0 <= k < |a| && a[k] == b[i];
    }
  }

  /** Built from windowed trials, the group is sorted by event time, is a
      reordering of the demixed probe trials followed by the filtered
      saccades, holds one trial per probe plus one per passing saccade, and
      every trial in it is windowed. */
  lemma GroupOfProperties(probes: seq<Trial>, sacs: seq<Trial>)
    requires forall i :: 0 <= i < |probes| ==> Windowed(probes[i])
    requires forall i :: 0 <= i < |sacs| ==> Windowed(sacs[i])
    ensures var g := GroupOf(probes, sacs).trials;
      && SortedByTime(g)
      && multiset(g) == multiset(Demix(probes, sacs, false) + PassingSaccades(sacs, probes))
      && |g| == |probes| + |PassingSaccades(sacs, probes)|
      && forall i :: 0 <= i < |g| ==> Windowed(g[i])
  {
    var combined := Demix(probes, sacs, false) + PassingSaccades(sacs, probes);
    SortByTimeIsSortedPermutation(combined);
    DemixOnePerProbe(probes, sacs, |probes|);
    CombinedWindowed(probes, sacs);
    PermutationWindowed(combined, SortByTime(combined));
  }

  /** calculate's trial group, when it is built, has the properties of
      GroupOfProperties over the aligned probe and saccade trials. */
  lemma TrialGroupProperties(p: Processor)
    requires p.Valid() && TrialGroupOf(p).Ok?
    ensures var g := TrialGroupOf(p).value.trials;
      var sac := SaccadeTrials(p).value;
      var probe := ProbeTrials(p).value;
      && SortedByTime(g)
      && multiset(g) == multiset(Demix(probe, sac, false) + PassingSaccades(sac, probe))
      && |g| == |p.probeTimings| + |PassingSaccades(sac, probe)|
      && forall i :: 0 <= i < |g| ==> Windowed(g[i])
  {
    AlignedAreWindowed(p.firingRateBins, p.saccadeTimings, p.saccadeMotions, p.saccadeBlocks,
                       Saccade, |p.saccadeTimings|);
    AlignedAreWindowed(p.firingRateBins, p.probeTimings, p.probeMotions, p.probeBlocks,
                       Probe, |p.probeTimings|);
    GroupOfProperties(ProbeTrials(p).value, SaccadeTrials(p).value);
  }
}
