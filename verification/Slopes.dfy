/** What the remaining-time estimate means, told from the recorded samples alone. */
module Slopes {
  import opened Shared
  import opened RemainingTime

  /** Samples that an unsigned subtraction does not spoil. */
  predicate Plain(s: seq<Sample>) {
    && (forall i :: 0 <= i < |s| ==> s[i].percentage <= 100 && s[i].time < UINT_RANGE)
    && (forall i :: 0 < i < |s| ==> s[i - 1].percentage <= s[i].percentage && s[i - 1].time <= s[i].time)
  }

  /** The progress between two neighbouring samples, in percent per millisecond. */
  function Slope(s: seq<Sample>, i: nat): real
    requires 0 < i < |s| && s[i - 1].time < s[i].time
  {
    (s[i].percentage - s[i - 1].percentage) as real / (s[i].time - s[i - 1].time) as real
  }

  /** Neighbours that count: time passed, and progress is neither nothing nor absurd. */
  predicate Counts(s: seq<Sample>, i: nat)
    requires 0 < i < |s|
  {
    s[i - 1].time < s[i].time && 0.00001 <= Slope(s, i) <= 100.0
  }

  lemma {:induction false} GradientIsSlope(s: seq<Sample>, i: nat)
    requires Plain(s) && 0 < i < |s|
    ensures Counts(s, i) <==> Admissible(Gradient(s[i], s[i - 1]))
    ensures Counts(s, i) ==> Gradient(s[i], s[i - 1]) == Slope(s, i)
  {
  }

  /** The slopes that count, newest first. */
  function CountingSlopes(s: seq<Sample>): seq<real> {
    if |s| < 2 then []
    else (if Counts(s, |s| - 1) then [Slope(s, |s| - 1)] else []) + CountingSlopes(s[..|s| - 1])
  }

  lemma {:induction false} GradientsAreSlopes(s: seq<Sample>)
    requires Plain(s)
    ensures Gradients(s) == CountingSlopes(s)
  {
    if |s| >= 2 {
      var n := |s| - 1;
      GradientIsSlope(s, n);
      GradientsAreSlopes(s[..n]);
    }
  }

  lemma {:induction false} SlopesInside(s: seq<Sample>, lo: real, hi: real)
    requires forall i :: 0 < i < |s| && Counts(s, i) ==> lo <= Slope(s, i) <= hi
    ensures forall g :: g in CountingSlopes(s) ==> lo <= g <= hi
  {
    if |s| >= 2 {
      var t := s[..|s| - 1];
      assert forall i :: 0 < i < |t| ==>
        (Counts(t, i) <==> Counts(s, i)) && (Counts(s, i) ==> Slope(t, i) == Slope(s, i));
      SlopesInside(t, lo, hi);
    }
  }

  lemma {:induction false} AveragedInside(t: TimeState, lo: real, hi: real)
    requires Plain(t.samples)
    requires forall i :: 0 < i < |t.samples| && Counts(t.samples, i) ==> lo <= Slope(t.samples, i) <= hi
    ensures forall g :: g in Averaged(t) ==> lo <= g <= hi
  {
    GradientsAreSlopes(t.samples);
    SlopesInside(t.samples, lo, hi);
    var gs := Gradients(t.samples);
    assert forall g :: g in Averaged(t) ==> g in gs;
  }

  lemma {:induction false} LeftOver(s: seq<Sample>)
    requires s != [] && s[|s| - 1].percentage <= 100
    ensures UintSub(100, s[|s| - 1].percentage) == 100 - s[|s| - 1].percentage
  {
  }

  /** A non-zero estimate lies between what is left at the fastest and at the slowest pace between neighbours,
      and between the limits of the estimator. */
  lemma {:induction false} EstimateWithinSlopes(t: TimeState, lo: real, hi: real)
    requires Plain(t.samples) && t.averageMin >= 1 && 0.0 < lo
    requires forall i :: 0 < i < |t.samples| && Counts(t.samples, i) ==> lo <= Slope(t.samples, i) <= hi
    requires Remaining(t) != 0
    ensures t.samples != [] && hi > 0.0
    ensures var left := (100 - t.samples[|t.samples| - 1].percentage) as real;
            (left / hi / 1000.0).Floor <= Remaining(t) <= (left / lo / 1000.0).Floor
    ensures t.valueMin <= Remaining(t) <= t.valueMax
  {
    AveragedInside(t, lo, hi);
    RemainingBounds(t, lo, hi);
    LeftOver(t.samples);
  }

  // ----- steady progress -----

  /** The last `k` steps are of `p` percent in `d` milliseconds each. */
  predicate SteadyAtTheEnd(s: seq<Sample>, k: nat, p: nat, d: nat) {
    && k < |s|
    && forall i :: |s| - k <= i < |s| ==>
         s[i].percentage == s[i - 1].percentage + p && s[i].time == s[i - 1].time + d
  }

  function Repeated(x: real, k: nat): seq<real> { seq(k, _ => x) }

  predicate AdmissiblePace(p: nat, d: nat) { d > 0 && 0.00001 <= p as real / d as real <= 100.0 }

  lemma {:induction false} StepSlope(s: seq<Sample>, i: nat, p: nat, d: nat)
    requires 0 < i < |s| && AdmissiblePace(p, d)
    requires s[i].percentage == s[i - 1].percentage + p && s[i].time == s[i - 1].time + d
    ensures Counts(s, i) && Slope(s, i) == p as real / d as real
  {
    assert s[i].percentage - s[i - 1].percentage == p && s[i].time - s[i - 1].time == d;
  }

  /** The last `k` slopes count and are the same. */
  predicate EvenAtTheEnd(s: seq<Sample>, k: nat, g: real) {
    k < |s| && forall i :: |s| - k <= i < |s| ==> Counts(s, i) && Slope(s, i) == g
  }

  lemma {:induction false} EvenSlopes(s: seq<Sample>, k: nat, g: real)
    requires EvenAtTheEnd(s, k, g)
    ensures |CountingSlopes(s)| >= k && CountingSlopes(s)[..k] == Repeated(g, k)
  {
    if k > 0 {
      var older := s[..|s| - 1];
      forall i | |older| - (k - 1) <= i < |older| ensures Counts(older, i) && Slope(older, i) == g {
        assert Counts(s, i) && Slope(s, i) == g;
        assert older[i] == s[i] && older[i - 1] == s[i - 1];
      }
      EvenSlopes(older, k - 1, g);
      var rest := CountingSlopes(older);
      assert CountingSlopes(s) == [g] + rest;
      assert ([g] + rest)[..k] == [g] + rest[..k - 1];
    }
  }

  lemma {:induction false} SteadySlopes(s: seq<Sample>, k: nat, p: nat, d: nat)
    requires Plain(s) && SteadyAtTheEnd(s, k, p, d) && AdmissiblePace(p, d)
    ensures |CountingSlopes(s)| >= k && CountingSlopes(s)[..k] == Repeated(p as real / d as real, k)
  {
    var g := p as real / d as real;
    forall i | |s| - k <= i < |s| ensures Counts(s, i) && Slope(s, i) == g { StepSlope(s, i, p, d); }
    EvenSlopes(s, k, g);
  }

  lemma {:induction false} Pace(left: real, p: real, d: real)
    requires p > 0.0 && d > 0.0
    ensures p / d > 0.0 && left / (p / d) == left * d / p
  {
    var g, q := p / d, left * d / p;
    assert g * d == p && q * p == left * d;
    assert q * g * d == left * d;
    Cancel(q * g, left, d);
    assert (left / g) * g == left;
    Cancel(left / g, q, g);
  }

  lemma {:induction false} Cancel(a: real, b: real, c: real)
    requires c > 0.0 && a * c == b * c
    ensures a == b
  {
    if a < b { ScaleLess(a, b, c); } else if b < a { ScaleLess(b, a, c); }
  }

  lemma {:induction false} AveragedSteady(t: TimeState, k: nat, p: nat, d: nat)
    requires Plain(t.samples) && SteadyAtTheEnd(t.samples, k, p, d)
    requires AdmissiblePace(p, d)
    requires k == t.averageMax + 1 || (k == |t.samples| - 1 && k <= t.averageMax + 1)
    ensures Averaged(t) == Repeated(p as real / d as real, k)
  {
    GradientsAreSlopes(t.samples);
    SteadySlopes(t.samples, k, p, d);
    SlopesAreFew(t.samples);
  }

  /** The time for what is left, in seconds, at a pace of p percent in d milliseconds. */
  function Seconds(left: real, p: real, d: real): real
    requires p > 0.0
  {
    left * d / p / 1000.0
  }

  /** Whole seconds, and 0 outside the limits. */
  function Cut(t: TimeState, seconds: real): int {
    if seconds < t.valueMin as real || seconds > t.valueMax as real then 0 else seconds.Floor
  }

  predicate AllEqual(gs: seq<real>, g: real) { forall x :: x in gs ==> x == g }

  lemma {:induction false} AtPace(t: TimeState, left: real, p: real, d: real)
    requires t.averageMin >= 1 && |Averaged(t)| >= t.averageMin && t.samples != []
    requires p > 0.0 && d > 0.0 && AllEqual(Averaged(t), p / d)
    requires t.samples[|t.samples| - 1].percentage <= 100
    requires left == (100 - t.samples[|t.samples| - 1].percentage) as real
    ensures Remaining(t) == Cut(t, Seconds(left, p, d))
  {
    AtPaceSeconds(t, left, p, d, Seconds(left, p, d));
  }

  lemma {:induction false} AtPaceSeconds(t: TimeState, left: real, p: real, d: real, seconds: real)
    requires t.averageMin >= 1 && |Averaged(t)| >= t.averageMin && t.samples != []
    requires p > 0.0 && d > 0.0 && AllEqual(Averaged(t), p / d)
    requires t.samples[|t.samples| - 1].percentage <= 100
    requires left == (100 - t.samples[|t.samples| - 1].percentage) as real
    requires seconds == left * d / p / 1000.0
    ensures Remaining(t) == if seconds < t.valueMin as real || seconds > t.valueMax as real then 0 else seconds.Floor
  {
    Pace(left, p, d);
    AtGradient(t, left, p / d, seconds);
  }

  lemma {:induction false} AtGradient(t: TimeState, left: real, g: real, seconds: real)
    requires t.averageMin >= 1 && |Averaged(t)| >= t.averageMin && t.samples != []
    requires g > 0.0 && AllEqual(Averaged(t), g)
    requires t.samples[|t.samples| - 1].percentage <= 100
    requires left == (100 - t.samples[|t.samples| - 1].percentage) as real && seconds == left / g / 1000.0
    ensures Remaining(t) == if seconds < t.valueMin as real || seconds > t.valueMax as real then 0 else seconds.Floor
  {
    LeftOver(t.samples);
    SteadyProgress(t, g);
    assert seconds == UintSub(100, t.samples[|t.samples| - 1].percentage) as real / g / 1000.0;
  }

  lemma {:induction false} SteadyGradients(t: TimeState, k: nat, p: nat, d: nat)
    requires Plain(t.samples) && SteadyAtTheEnd(t.samples, k, p, d)
    requires AdmissiblePace(p, d)
    requires k == t.averageMax + 1 || (k == |t.samples| - 1 && k <= t.averageMax + 1)
    ensures |Averaged(t)| == k && AllEqual(Averaged(t), p as real / d as real)
  {
    AveragedSteady(t, k, p, d);
  }

  /** When the newest steps, as many as are averaged, are all of p percent in d milliseconds, the estimate is
      what is left at that pace, whatever the progress was before; it is cut to whole seconds, and 0 outside
      the limits. */
  lemma {:induction false} SteadyPaceExactly(t: TimeState, k: nat, p: nat, d: nat)
    requires Plain(t.samples) && SteadyAtTheEnd(t.samples, k, p, d)
    requires p > 0 && AdmissiblePace(p, d)
    requires 1 <= t.averageMin <= k
    requires k == t.averageMax + 1 || (k == |t.samples| - 1 && k <= t.averageMax + 1)
    ensures var left := (100 - t.samples[|t.samples| - 1].percentage) as real;
            Remaining(t) == Cut(t, Seconds(left, p as real, d as real))
  {
    var left := (100 - t.samples[|t.samples| - 1].percentage) as real;
    SteadyGradients(t, k, p, d);
    AtPace(t, left, p as real, d as real);
  }

  lemma {:induction false} SlopesAreFew(s: seq<Sample>)
    ensures |CountingSlopes(s)| <= if |s| == 0 then 0 else |s| - 1
  {
    if |s| >= 2 { SlopesAreFew(s[..|s| - 1]); }
  }

  /** Too few neighbours that count, and there is no estimate. */
  lemma {:induction false} TooFewSlopes(t: TimeState)
    requires Plain(t.samples) && |CountingSlopes(t.samples)| < t.averageMin
    ensures Remaining(t) == 0
  {
    GradientsAreSlopes(t.samples);
  }

  // ----- the samples -----

  /** Samples that were recorded by a clock that does not go back are fit for all this. */
  lemma {:induction false} SoundIsPlain(t: TimeState, now: nat)
    requires SamplesSound(t, now) && Elapsed(t, now) < UINT_RANGE
    ensures Plain(t.samples)
  {
  }

  /** The estimator starts without samples, averages up to eleven slopes and at least four, and answers
      between five seconds and an hour. */
  lemma {:induction false} ResetExactly(now: nat)
    ensures var t := Reset(now);
            && t.samples == [] && t.lastPercentage == 0 && t.offset == 0 && t.start == now
            && t.averageMin == 4 && t.averageMax + 1 == 11 && t.valueMin == 5 && t.valueMax == 3600
  {
  }

  /** A percentage is recorded with the time since the start unless it is below the last one. */
  lemma {:induction false} RecordedExactly(t: TimeState, percentage: nat, now: nat)
    requires t.start <= now
    ensures var r := AddData(t, percentage, now);
            if percentage < t.lastPercentage then r == t
            else
              && r.lastPercentage == percentage && r.start == t.start && r.offset == t.offset
              && r.samples[..|r.samples| - 1] == t.samples
              && r.samples[|r.samples| - 1] == Sample(percentage, now - t.start + t.offset)
  {
  }

  function OneASecond(): seq<Sample> {
    [Sample(1, 1000), Sample(2, 2000), Sample(3, 3000), Sample(4, 4000), Sample(5, 5000), Sample(6, 6000)]
  }

  lemma {:induction false} OneASecondIsSteady()
    ensures Plain(OneASecond()) && SteadyAtTheEnd(OneASecond(), 5, 1, 1000)
  {
    var s := OneASecond();
    forall i | 0 <= i < 6 ensures s[i] == Sample(i + 1, 1000 * (i + 1)) {
      if i == 0 {} else if i == 1 {} else if i == 2 {} else if i == 3 {} else if i == 4 {}
    }
  }

  lemma {:induction false} NinetyFour()
    ensures Seconds((100 - 6) as real, 1 as real, 1000 as real) == 94.0
  {
  }

  /** Six samples, one percent and one second apart: 94 percent are left, so 94 seconds. */
  lemma {:induction false} OnePercentASecond()
    ensures Remaining(Reset(0).(lastPercentage := 6, samples := OneASecond())) == 94
  {
    var t := Reset(0).(lastPercentage := 6, samples := OneASecond());
    OneASecondIsSteady();
    NinetyFour();
    assert t.samples[|t.samples| - 1].percentage == 6;
    SteadyPaceExactly(t, 5, 1, 1000);
  }
}
