/** Trial records and the trial group: what the alignment pipeline produces
    and what the Rp-peri baseline calculator reads back. */
module Trials {

  datatype Label = Probe | Saccade | Mixed

  /** The provenance map of a trial: empty for a probe or saccade trial; for
      a mixed trial, the window and time of the probe and of the saccade it
      was merged with. */
  datatype Events =
    | NoEvents
    | MixedEvents(probeStart: int, probeEvent: int, probeEnd: int, probeTime: real,
                  saccadeStart: int, saccadeEvent: int, saccadeEnd: int, saccadeTime: real)

  /** One trial: a window [startIdx, endIdx] of firing-rate bins around the
      bin eventIdx that holds the event at eventTime (seconds). */
  datatype Trial = Trial(startIdx: int, endIdx: int, eventIdx: int, eventTime: real,
                         trialLabel: Label, motion: int, block: int, events: Events)

  /** A trial group: the aligned trials, ordered by event time. */
  datatype TrialGroup = TrialGroup(trials: seq<Trial>)

  /** get_trials_by_type: the trials carrying `trialLabel`, in group order. */
  function TrialsByType(g: TrialGroup, trialLabel: Label): seq<Trial> {
    LabelFilter(g.trials, trialLabel)
  }

  function LabelFilter(s: seq<Trial>, trialLabel: Label): (r: seq<Trial>)
    ensures forall i :: 0 <= i < |r| ==> r[i].trialLabel == trialLabel
    ensures forall x :: multiset(r)[x] == if x.trialLabel == trialLabel then multiset(s)[x] else 0
  {
    if s == [] then []
    else
      assert s == s[..|s| - 1] + [s[|s| - 1]];
      LabelFilter(s[..|s| - 1], trialLabel) + (if s[|s| - 1].trialLabel == trialLabel then [s[|s| - 1]] else [])
  }

  /** A sequence holding only probe and mixed trials splits into the two kinds. */
  lemma {:induction false} LabelFilterProbeMixed(s: seq<Trial>)
    requires forall i :: 0 <= i < |s| ==> s[i].trialLabel == Probe || s[i].trialLabel == Mixed
    ensures |LabelFilter(s, Probe)| + |LabelFilter(s, Mixed)| == |s|
    ensures LabelFilter(s, Saccade) == []
  {
    if s != [] {
      var init := s[..|s| - 1];
      var last := s[|s| - 1];
      LabelFilterProbeMixed(init);
      assert |LabelFilter(s, Probe)| == |LabelFilter(init, Probe)| + (if last.trialLabel == Probe then 1 else 0);
      assert |LabelFilter(s, Mixed)| == |LabelFilter(init, Mixed)| + (if last.trialLabel == Mixed then 1 else 0);
      assert LabelFilter(s, Saccade) == LabelFilter(init, Saccade);
    }
  }

  /** Non-decreasing in event time. */
  predicate SortedByTime(s: seq<Trial>) {
    forall i, j :: 0 <= i < j < |s| ==> s[i].eventTime <= s[j].eventTime
  }

  /** x placed in front of the first trial of s that is not earlier than x. */
  function InsertByTime(x: Trial, s: seq<Trial>): seq<Trial> {
    if s == [] || x.eventTime <= s[0].eventTime then [x] + s
    else [s[0]] + InsertByTime(x, s[1..])
  }

  /** sorted(trs, key=lambda x: x.event_time): a stable sort by event time. */
  function SortByTime(s: seq<Trial>): seq<Trial> {
    if s == [] then [] else InsertByTime(s[0], SortByTime(s[1..]))
  }

  /** The trials of s whose event time is exactly k, in order of s. */
  function AtTime(s: seq<Trial>, k: real): seq<Trial> {
    if s == [] then [] else (if s[0].eventTime == k then [s[0]] else []) + AtTime(s[1..], k)
  }

  /** Every trial of InsertByTime(x, s) is at least as late as a bound that
      x and every trial of s respect. */
  lemma {:induction false} InsertByTimeBound(x: Trial, s: seq<Trial>, lo: real)
    requires lo <= x.eventTime && forall i :: 0 <= i < |s| ==> lo <= s[i].eventTime
    ensures |InsertByTime(x, s)| == |s| + 1
    ensures forall i :: 0 <= i < |InsertByTime(x, s)| ==> lo <= InsertByTime(x, s)[i].eventTime
  {
    if s != [] && s[0].eventTime < x.eventTime {
      InsertByTimeBound(x, s[1..], lo);
    }
  }

  /** InsertByTime adds x and keeps every trial of s. */
  lemma {:induction false} InsertByTimeMultiset(x: Trial, s: seq<Trial>)
    ensures multiset(InsertByTime(x, s)) == multiset{x} + multiset(s)
  {
    if s != [] && s[0].eventTime < x.eventTime {
      InsertByTimeMultiset(x, s[1..]);
      assert s == [s[0]] + s[1..];
    }
  }

  lemma {:induction false} InsertByTimeSorted(x: Trial, s: seq<Trial>)
    requires SortedByTime(s)
    ensures SortedByTime(InsertByTime(x, s))
    ensures |InsertByTime(x, s)| == |s| + 1
  {
    if s == [] || x.eventTime <= s[0].eventTime {
      assert InsertByTime(x, s) == [x] + s;
    } else {
      InsertByTimeSorted(x, s[1..]);
      InsertByTimeBound(x, s[1..], s[0].eventTime);
      var r := InsertByTime(x, s[1..]);
      var res := InsertByTime(x, s);
      assert res == [s[0]] + r;
      forall i, j | 0 <= i < j < |res| ensures res[i].eventTime <= res[j].eventTime {
        assert res[j] == r[j - 1];
        if i > 0 {
          assert res[i] == r[i - 1];
        }
      }
    }
  }

  /** Inserting x into a sorted sequence puts it after every earlier-time
      trial and before every trial of equal time, so the trials of any one
      event time keep their relative order with x first. */
  lemma {:induction false} InsertByTimeAtTime(x: Trial, s: seq<Trial>, k: real)
    requires SortedByTime(s)
    ensures AtTime(InsertByTime(x, s), k) == (if x.eventTime == k then [x] else []) + AtTime(s, k)
  {
    if s == [] || x.eventTime <= s[0].eventTime {
      assert InsertByTime(x, s)[1..] == s;
    } else {
      InsertByTimeAtTime(x, s[1..], k);
      assert InsertByTime(x, s)[1..] == InsertByTime(x, s[1..]);
      if x.eventTime == k {
        // s[0] is strictly earlier than x, so it is not among the trials at time k
        assert AtTime(s, k) == AtTime(s[1..], k);
      } else {
        assert AtTime(s, k) == (if s[0].eventTime == k then [s[0]] else []) + AtTime(s[1..], k);
      }
    }
  }

  /** _sort_trials returns a permutation of its input that is non-decreasing
      in event time. */
  lemma {:induction false} SortByTimeIsSortedPermutation(s: seq<Trial>)
    ensures SortedByTime(SortByTime(s))
    ensures multiset(SortByTime(s)) == multiset(s)
    ensures |SortByTime(s)| == |s|
  {
    if s != [] {
      SortByTimeIsSortedPermutation(s[1..]);
      InsertByTimeSorted(s[0], SortByTime(s[1..]));
      InsertByTimeMultiset(s[0], SortByTime(s[1..]));
      assert SortByTime(s) == InsertByTime(s[0], SortByTime(s[1..]));
      calc {
        multiset(s);
        { assert s == [s[0]] + s[1..]; }
        multiset([s[0]] + s[1..]);
        multiset{s[0]} + multiset(s[1..]);
      }
    }
  }

  /** The sort is stable: the trials of any one event time appear in the
      output in the order they had in the input. */
  lemma {:induction false} SortByTimeIsStable(s: seq<Trial>, k: real)
    ensures AtTime(SortByTime(s), k) == AtTime(s, k)
  {
    if s != [] {
      SortByTimeIsSortedPermutation(s[1..]);
      SortByTimeIsStable(s[1..], k);
      InsertByTimeAtTime(s[0], SortByTime(s[1..]), k);
    }
  }

  /** Sorting a sequence that is already in time order changes nothing. */
  lemma {:induction false} SortByTimeOfSorted(s: seq<Trial>)
    requires SortedByTime(s)
    ensures SortByTime(s) == s
  {
    if s != [] {
      SortByTimeOfSorted(s[1..]);
      assert SortByTime(s[1..]) == s[1..];
      if |s| > 1 {
        assert s[0].eventTime <= s[1].eventTime;
      }
      assert InsertByTime(s[0], s[1..]) == [s[0]] + s[1..];
      assert [s[0]] + s[1..] == s;
    }
  }
}
