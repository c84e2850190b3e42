/** Shared vocabulary: the exceptions the analysis code raises, a Result type
    to carry them, and a few small integer and sequence helpers. */
module Common {

  /** The exceptions the modelled code can raise, named after the situation
      that raises them (the Python exception class is given in the comment). */
  datatype Error =
    | NotEnoughRecording       // ValueError: an event timestamp has no usable firing-rate bin
    | BinsNotMonotonic         // ValueError from numpy.histogram: bin edges decrease somewhere
    | LengthMismatch           // AssertionError: per-event arrays of one stream differ in length
    | TimeAxisNotDivisible     // AssertionError: time axis length is not a multiple of 3
    | EmptyShape               // IndexError: shape[-1] of a 0-dimensional array
    | NotThreeDimensional      // AssertionError: a quantification input is not (units, trials, t)
    | ConcatShapeMismatch      // ValueError from numpy.concatenate: units or time axes differ
    | MissingEvents            // KeyError: a "mixed" trial without saccade/probe times
    | MixedIndexOutOfRange     // IndexError: fewer mixed firing-rate indices than mixed trials
    | TrialIndexOutOfRange     // IndexError: a firing-rate trial index past the trial axis
    | TimeIndexOutOfRange      // IndexError: a timepoint past the time axis
    | BroadcastMismatch        // ValueError: the two waveforms cannot be broadcast together
    | RaggedStack              // ValueError from numpy.array: per-trial rows of unequal length
    | SwapAxesOnEmpty          // AxisError: swapaxes(0, 1) of the 1-D array made from no trials
    | DivisionByZero           // ZeroDivisionError: no worker pools

  datatype Result<T> = Ok(value: T) | Err(error: Error) {
    predicate IsFailure() { Err? }

    function PropagateFailure<U>(): Result<U>
      requires Err?
    {
      Err(error)
    }

    function Extract(): T
      requires Ok?
    {
      value
    }
  }

  datatype Option<T> = None | Some(value: T)

  function Abs(x: int): nat { if x < 0 then -x else x }

  function AbsReal(x: real): real { if x < 0.0 then -x else x }

  function Min(a: int, b: int): int { if a <= b then a else b }

  function Max(a: int, b: int): int { if a <= b then b else a }

  /** numpy.clip for a scalar. */
  function Clip(x: int, lo: int, hi: int): (r: int)
    requires lo <= hi
    ensures lo <= r <= hi
    ensures lo <= x <= hi ==> r == x
    ensures x < lo ==> r == lo
    ensures hi < x ==> r == hi
  {
    if x < lo then lo else if hi < x then hi else x
  }

  /** list(range(n)) */
  function Iota(n: nat): (r: seq<nat>)
    ensures |r| == n
    ensures forall i :: 0 <= i < n ==> r[i] == i
  {
    seq(n, i => i)
  }

  /** p is a reordering of range(n): what random.shuffle(list(range(n))) yields. */
  predicate IsPermutation(p: seq<nat>, n: nat) {
    |p| == n && multiset(p) == multiset(Iota(n))
  }

  /** The elements s[0..n) whose index satisfies `keep`, in index order: the
      shape of every loop of the core that appends the items passing a test. */
  function Keep<T>(s: seq<T>, keep: nat -> bool, n: nat): seq<T>
    requires n <= |s|
  {
    if n == 0 then [] else Keep(s, keep, n - 1) + (if keep(n - 1) then [s[n - 1]] else [])
  }

  /** Keep yields exactly the kept elements, in their original order: there
      is a strictly increasing list of source positions, holding every index
      below n that passes `keep` and no other. */
  lemma {:induction false} KeepIsOrderedSelection<T>(s: seq<T>, keep: nat -> bool, n: nat)
    returns (idx: seq<nat>)
    requires n <= |s|
    ensures |idx| == |Keep(s, keep, n)|
    ensures forall i :: 0 <= i < |idx| ==> idx[i] < n && Keep(s, keep, n)[i] == s[idx[i]]
    ensures forall i, j :: 0 <= i < j < |idx| ==> idx[i] < idx[j]
    ensures forall j :: 0 <= j < n ==> (keep(j) <==> j in idx)
  {
    if n == 0 {
      idx := [];
    } else {
      var prev := KeepIsOrderedSelection(s, keep, n - 1);
      var before := Keep(s, keep, n - 1);
      assert n - 1 !in prev by {
        forall i | 0 <= i < |prev| ensures prev[i] != n - 1 { }
      }
      if keep(n - 1) {
        idx := prev + [n - 1];
        var kept := Keep(s, keep, n);
        assert kept == before + [s[n - 1]];
        forall i | 0 <= i < |idx| ensures idx[i] < n && kept[i] == s[idx[i]] {
          if i < |prev| {
            assert idx[i] == prev[i] && kept[i] == before[i];
          }
        }
        forall i, j | 0 <= i < j < |idx| ensures idx[i] < idx[j] {
          assert idx[i] == prev[i];
        }
        forall j | 0 <= j < n ensures keep(j) <==> j in idx {
          assert j in idx <==> j in prev || j == n - 1;
        }
      } else {
        idx := prev;
        assert Keep(s, keep, n) == before;
      }
    }
  }
}
