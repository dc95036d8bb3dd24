/** Sequence numbers of inertial samples: counting the ones that never arrived. */
module Sensors {
  import opened Options
  import opened Clock

  const WRAP: nat := 0x1_0000_0000

  type Sequence = n: nat | n < WRAP

  datatype Tracker = Tracker(last: Option<Sequence>, drops: nat)

  const NEW: Tracker := Tracker(None, 0)

  function WrappingSub(a: Sequence, b: Sequence): Sequence { if a >= b then a - b else a + WRAP - b }

  function Missed(t: Tracker, s: Sequence): nat {
    match t.last
    case None => 0
    case Some(prev) => if WrappingSub(s, prev) == 0 then 0 else WrappingSub(s, prev) - 1
  }

  function Observed(t: Tracker, s: Sequence): Tracker { Tracker(Some(s), Capped(t.drops + Missed(t, s))) }

  class SequenceTracker {
    var last: Option<Sequence>
    var drops: nat

    function View(): Tracker
      reads this
    {
      Tracker(last, drops)
    }

    constructor ()
      ensures View() == NEW
    {
      last, drops := None, 0;
    }

    method Observe(s: Sequence) returns (missed: nat, total: nat)
      modifies this
      ensures View() == Observed(old(View()), s) && missed == Missed(old(View()), s) && total == drops
    {
      missed := 0;
      if last.Some? {
        var gap := WrappingSub(s, last.value);
        missed := if gap >= 1 then gap - 1 else 0;
      }
      last := Some(s);
      drops := Capped(drops + missed);
      total := drops;
    }
  }

  /** The tracker after observing these true numbers, each as its low 32 bits. */
  function Track(numbers: seq<nat>): Tracker {
    if |numbers| == 0 then NEW else Observed(Track(numbers[..|numbers| - 1]), numbers[|numbers| - 1] % WRAP)
  }

  /** Each number is later than the one before, by less than a full wrap. */
  predicate Advancing(numbers: seq<nat>) {
    forall i {:trigger numbers[i]} :: 0 < i < |numbers| ==> numbers[i - 1] < numbers[i] < numbers[i - 1] + WRAP
  }

  lemma WrappedGap(a: nat, b: nat)
    requires a <= b < a + WRAP
    ensures WrappingSub(b % WRAP, a % WRAP) == b - a
  {
  }

  lemma {:induction false} NeverBackwards(numbers: seq<nat>)
    requires Advancing(numbers) && |numbers| > 0
    ensures numbers[|numbers| - 1] - numbers[0] >= |numbers| - 1
  {
    if |numbers| > 1 {
      NeverBackwards(numbers[..|numbers| - 1]);
    }
  }

  /** Across any number of wraparounds the total is the length of the span less the samples
      that came, capped at the counter's maximum. */
  lemma {:induction false} DropsAreSpanLessArrivals(numbers: seq<nat>)
    requires Advancing(numbers) && |numbers| > 0
    ensures numbers[|numbers| - 1] - numbers[0] >= |numbers| - 1
    ensures Track(numbers) == Tracker(Some(numbers[|numbers| - 1] % WRAP),
                                      Capped(numbers[|numbers| - 1] - numbers[0] - (|numbers| - 1)))
  {
    NeverBackwards(numbers);
    if |numbers| > 1 {
      var front := numbers[..|numbers| - 1];
      DropsAreSpanLessArrivals(front);
      WrappedGap(numbers[|numbers| - 2], numbers[|numbers| - 1]);
    } else {
      assert Track(numbers[..0]) == NEW;
    }
  }

  lemma WrappedDifference(a: nat, b: nat)
    ensures WrappingSub(b % WRAP, a % WRAP) == (b - a) % WRAP
  {
  }

  /** What is counted between any two true numbers, late and repeated ones included. */
  lemma MissedIsWrapped(t: Tracker, a: nat, b: nat)
    requires t.last == Some(a % WRAP)
    ensures Missed(t, b % WRAP) == if (b - a) % WRAP == 0 then 0 else (b - a) % WRAP - 1
  {
    WrappedDifference(a, b);
  }

  /** The count is the number of samples between the two if and only if the second is later, by less
      than a full wrap. */
  lemma MissedIsGapIff(t: Tracker, a: nat, b: nat)
    requires t.last == Some(a % WRAP)
    ensures Missed(t, b % WRAP) == b - a - 1 <==> a < b < a + WRAP
  {
    MissedIsWrapped(t, a, b);
  }

  /** A sample that arrives late counts almost a whole wrap. */
  lemma LateSampleCountsAWrap(t: Tracker, a: nat, back: nat)
    requires t.last == Some(a % WRAP) && 0 < back < WRAP && back <= a
    ensures Missed(t, (a - back) % WRAP) == WRAP - back - 1
  {
    MissedIsWrapped(t, a, a - back);
  }
}
