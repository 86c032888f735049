/** The remaining-time estimate: the arithmetic as functions of the recorded samples. */
module RemainingTime {
  import opened Shared

  const AVERAGE_DEFAULT_MIN: nat := 4
  const AVERAGE_DEFAULT_MAX: nat := 10
  const VALUE_DEFAULT_MIN: nat := 5
  const VALUE_DEFAULT_MAX: nat := 3600

  /** Subtraction of unsigned 32-bit integers, wrap-around included. */
  function UintSub(a: nat, b: nat): nat { (a - b) % UINT_RANGE }

  datatype Sample = Sample(percentage: nat, time: nat)

  /** `start` is the reading of the clock, in milliseconds, when the timer was last reset. */
  datatype TimeState = TimeState(
    offset: nat,
    lastPercentage: nat,
    averageMin: nat,
    averageMax: nat,
    valueMin: nat,
    valueMax: nat,
    samples: seq<Sample>,
    start: nat)

  function Reset(now: nat): TimeState {
    TimeState(0, 0, AVERAGE_DEFAULT_MIN, AVERAGE_DEFAULT_MAX, VALUE_DEFAULT_MIN, VALUE_DEFAULT_MAX, [], now)
  }

  function Elapsed(t: TimeState, now: nat): nat {
    (if now >= t.start then now - t.start else 0) + t.offset
  }

  function AddData(t: TimeState, percentage: nat, now: nat): TimeState {
    if percentage < t.lastPercentage then t
    else t.(lastPercentage := percentage, samples := t.samples + [Sample(percentage, Elapsed(t, now))])
  }

  function Gradient(newer: Sample, older: Sample): real {
    if newer.time == older.time || UintSub(newer.time, older.time) == 0 then 0.0
    else UintSub(newer.percentage, older.percentage) as real / UintSub(newer.time, older.time) as real
  }

  predicate Admissible(g: real) { 0.00001 <= g <= 100.0 }

  /** The admissible gradients between consecutive samples, newest first. */
  function Gradients(samples: seq<Sample>): seq<real> {
    if |samples| < 2 then []
    else
      var n := |samples|;
      var g := Gradient(samples[n - 1], samples[n - 2]);
      (if Admissible(g) then [g] else []) + Gradients(samples[..n - 1])
  }

  function Sum(gs: seq<real>): real {
    if gs == [] then 0.0 else gs[0] + Sum(gs[1..])
  }

  function Min(a: nat, b: nat): nat { if a < b then a else b }

  /** The gradients that are averaged: the newest averageMax + 1 of the admissible ones. */
  function Averaged(t: TimeState): seq<real> {
    var gs := Gradients(t.samples);
    gs[..Min(|gs|, t.averageMax + 1)]
  }

  /** The estimate in seconds before it is cut to a whole number. */
  function Estimate(left: nat, mean: real): real
    requires mean > 0.0
  {
    left as real / mean / 1000.0
  }

  function Clamp(estimate: real, t: TimeState): nat
    requires estimate >= 0.0
  {
    if estimate < t.valueMin as real || estimate > t.valueMax as real then 0 else estimate.Floor
  }

  lemma {:induction false} SumBounds(gs: seq<real>, lo: real, hi: real)
    requires forall g :: g in gs ==> lo <= g <= hi
    ensures lo * |gs| as real <= Sum(gs) <= hi * |gs| as real
  {
    if gs != [] {
      assert forall g :: g in gs[1..] ==> g in gs;
      SumBounds(gs[1..], lo, hi);
      assert gs[0] in gs;
      var n := |gs| - 1;
      ScaleNext(lo, n);
      ScaleNext(hi, n);
      assert Sum(gs) == gs[0] + Sum(gs[1..]) && |gs[1..]| == n;
    }
  }

  lemma {:induction false} ScaleNext(a: real, n: nat)
    ensures a * (n + 1) as real == a * n as real + a
  {
    assert (n + 1) as real == n as real + 1.0;
  }

  lemma {:induction false} GradientsAdmissible(samples: seq<Sample>)
    ensures forall g :: g in Gradients(samples) ==> Admissible(g)
  {
    if |samples| >= 2 { GradientsAdmissible(samples[..|samples| - 1]); }
  }

  lemma {:induction false} MeanBounds(gs: seq<real>, lo: real, hi: real)
    requires gs != [] && lo > 0.0 && forall g :: g in gs ==> lo <= g <= hi
    ensures lo <= Sum(gs) / |gs| as real <= hi
  {
    SumBounds(gs, lo, hi);
    var n := |gs| as real;
    assert n > 0.0;
    DivideBounds(Sum(gs), n, lo, hi);
  }

  lemma {:induction false} ScaleLess(a: real, b: real, c: real)
    requires a < b && c > 0.0
    ensures a * c < b * c
  {
  }

  lemma {:induction false} DivideBounds(x: real, n: real, lo: real, hi: real)
    requires n > 0.0 && lo * n <= x <= hi * n
    ensures lo <= x / n <= hi
  {
    var q := x / n;
    assert q * n == x;
    if q < lo {
      ScaleLess(q, lo, n);
    } else if hi < q {
      ScaleLess(hi, q, n);
    }
  }

  lemma {:induction false} AveragedAdmissible(t: TimeState)
    ensures forall g :: g in Averaged(t) ==> Admissible(g)
  {
    GradientsAdmissible(t.samples);
    var gs := Gradients(t.samples);
    assert forall g :: g in Averaged(t) ==> g in gs;
  }

  function Mean(gs: seq<real>): (m: real)
    requires gs != [] && forall g :: g in gs ==> Admissible(g)
    ensures 0.00001 <= m <= 100.0
  {
    assert forall g :: g in gs ==> Admissible(g) && 0.00001 <= g <= 100.0;
    MeanBounds(gs, 0.00001, 100.0);
    Sum(gs) / |gs| as real
  }

  /** What the estimator answers, as a closed form. With fewer than averageMin gradients, or with
      none, there is no answer. */
  function Remaining(t: TimeState): nat {
    var gs := Averaged(t);
    if |gs| < t.averageMin || gs == [] then 0
    else
      AveragedAdmissible(t);
      Clamp(Estimate(UintSub(100, t.samples[|t.samples| - 1].percentage), Mean(gs)), t)
  }

  /** The mean of no gradients at all is asked for. */
  predicate Undefined(t: TimeState) { |t.samples| >= 2 && t.averageMin == 0 && Averaged(t) == [] }

  // ----- what the estimate means -----

  /** A non-zero answer is within the limits and lies between what the largest and the smallest
      averaged gradient alone would give. */
  lemma {:induction false} RemainingBounds(t: TimeState, gmin: real, gmax: real)
    requires t.averageMin >= 1 && gmin > 0.0
    requires forall g :: g in Averaged(t) ==> gmin <= g <= gmax
    requires Remaining(t) != 0
    ensures t.samples != [] && t.valueMin <= Remaining(t) <= t.valueMax && |Averaged(t)| >= t.averageMin
    ensures var left := UintSub(100, t.samples[|t.samples| - 1].percentage);
            gmax > 0.0 &&
            (left as real / gmax / 1000.0).Floor <= Remaining(t) <= (left as real / gmin / 1000.0).Floor
  {
    var gs := Averaged(t);
    AveragedAdmissible(t);
    var mean := Mean(gs);
    MeanBounds(gs, gmin, gmax);
    var left := UintSub(100, t.samples[|t.samples| - 1].percentage) as real;
    DivideAntitone(left, gmin, mean);
    DivideAntitone(left, mean, gmax);
    var e := left / mean / 1000.0;
    assert t.valueMin as real <= e <= t.valueMax as real;
    FloorMonotone(t.valueMin as real, e);
    FloorMonotone(e, t.valueMax as real);
    FloorMonotone(left / gmax / 1000.0, e);
    FloorMonotone(e, left / gmin / 1000.0);
  }

  lemma {:induction false} DivideAntitone(x: real, a: real, b: real)
    requires x >= 0.0 && 0.0 < a <= b
    ensures x / b <= x / a
  {
    var q := x / a;
    assert q * a == x && q >= 0.0;
    assert x <= q * b;
    assert 0.0 * b <= x;
    DivideBounds(x, b, 0.0, q);
  }

  lemma {:induction false} FloorMonotone(a: real, b: real)
    requires a <= b
    ensures a.Floor <= b.Floor
  {
  }

  /** When progress was steady the answer is exact. */
  lemma {:induction false} SteadyProgress(t: TimeState, g: real)
    requires t.averageMin >= 1 && |Averaged(t)| >= t.averageMin
    requires g > 0.0 && forall x :: x in Averaged(t) ==> x == g
    ensures t.samples != []
    ensures var exact := UintSub(100, t.samples[|t.samples| - 1].percentage) as real / g / 1000.0;
            Remaining(t) == if exact < t.valueMin as real || exact > t.valueMax as real then 0 else exact.Floor
  {
    MeanBounds(Averaged(t), g, g);
  }

  // ----- soundness of the samples -----

  /** Samples never go down, end at lastPercentage, are at most 100 and not in the future. */
  predicate SamplesSound(t: TimeState, now: nat) {
    && t.start <= now && t.lastPercentage <= 100
    && (forall i, j :: 0 <= i < j < |t.samples| ==>
          t.samples[i].percentage <= t.samples[j].percentage && t.samples[i].time <= t.samples[j].time)
    && (forall i :: 0 <= i < |t.samples| ==>
          t.samples[i].percentage <= t.lastPercentage && t.samples[i].time <= Elapsed(t, now))
  }

  lemma {:induction false} SamplesStaySound(t: TimeState, percentage: nat, before: nat, now: nat)
    requires SamplesSound(t, before) && before <= now && percentage <= 100
    ensures SamplesSound(AddData(t, percentage, now), now)
  {
  }

  /** On sound samples, within the range of the counter, no unsigned subtraction wraps. */
  lemma {:induction false} NoWrap(t: TimeState, now: nat, i: nat)
    requires SamplesSound(t, now) && Elapsed(t, now) < UINT_RANGE && i < |t.samples|
    ensures UintSub(100, t.samples[i].percentage) == 100 - t.samples[i].percentage
    ensures forall j :: 0 <= j < i ==>
              && UintSub(t.samples[i].percentage, t.samples[j].percentage)
                 == t.samples[i].percentage - t.samples[j].percentage
              && UintSub(t.samples[i].time, t.samples[j].time) == t.samples[i].time - t.samples[j].time
  {
  }

  lemma {:induction false} SumAppend(gs: seq<real>, g: real)
    ensures Sum(gs + [g]) == Sum(gs) + g
  {
    if gs != [] {
      assert (gs + [g])[1..] == gs[1..] + [g];
      SumAppend(gs[1..], g);
    }
  }
}
