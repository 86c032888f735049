/** The remaining-time estimator working in place on its samples. */
module Estimator {
  import opened Packages
  import opened RemainingTime

  /** One turn of the loop below: a gradient more, or one that is left out. */
  lemma {:induction false} NextGradient(samples: seq<Sample>, i: nat, all: seq<real>, n: nat)
    requires 0 < i < |samples| && n <= |all| && all[n..] == Gradients(samples[..i + 1])
    ensures var g := Gradient(samples[i], samples[i - 1]);
            if Admissible(g)
            then n < |all| && all[n + 1..] == Gradients(samples[..i]) && Sum(all[..n + 1]) == Sum(all[..n]) + g
            else all[n..] == Gradients(samples[..i])
  {
    var g := Gradient(samples[i], samples[i - 1]);
    assert samples[..i + 1][..i] == samples[..i];
    if Admissible(g) {
      assert all[n..] == [g] + Gradients(samples[..i]);
      assert all[n] == all[n..][0] == g;
      assert all[n + 1..] == all[n..][1..];
      assert all[..n + 1] == all[..n] + [g];
      SumAppend(all[..n], g);
    }
  }

  /** The estimator object: samples are appended and the limits updated in place. */
  class Time {
    var offset: nat
    var lastPercentage: nat
    var averageMin: nat
    var averageMax: nat
    var valueMin: nat
    var valueMax: nat
    var samples: seq<Sample>
    var start: nat

    ghost function View(): TimeState
      reads this
    {
      TimeState(offset, lastPercentage, averageMin, averageMax, valueMin, valueMax, samples, start)
    }

    constructor (now: nat)
      ensures View() == RemainingTime.Reset(now)
    {
      offset, lastPercentage := 0, 0;
      averageMin, averageMax := AVERAGE_DEFAULT_MIN, AVERAGE_DEFAULT_MAX;
      valueMin, valueMax := VALUE_DEFAULT_MIN, VALUE_DEFAULT_MAX;
      samples, start := [], now;
    }

    method Reset(now: nat)
      modifies this
      ensures View() == RemainingTime.Reset(now)
    {
      offset, lastPercentage := 0, 0;
      averageMin, averageMax := AVERAGE_DEFAULT_MIN, AVERAGE_DEFAULT_MAX;
      valueMin, valueMax := VALUE_DEFAULT_MIN, VALUE_DEFAULT_MAX;
      start := now;
      samples := [];
    }

    method AddData(percentage: nat, now: nat) returns (ok: bool)
      modifies this
      ensures View() == RemainingTime.AddData(old(View()), percentage, now)
      ensures ok <==> percentage >= old(lastPercentage)
    {
      if percentage < lastPercentage {
        return false;
      }
      lastPercentage := percentage;
      var elapsed := (if now >= start then now - start else 0) + offset;
      samples := samples + [Sample(percentage, elapsed)];
      return true;
    }

    /** The loop of the estimator: it walks the samples backwards and stops once more than
        averageMax gradients were admissible. */
    method SumGradients() returns (averaged: nat, sum: real)
      requires |samples| >= 2
      ensures averaged == |Averaged(View())| && sum == Sum(Averaged(View()))
    {
      ghost var all := Gradients(samples);
      averaged, sum := 0, 0.0;
      var i := |samples| - 1;
      assert samples[..i + 1] == samples && all[0..] == all;
      while i > 0
        invariant 0 <= i < |samples|
        invariant averaged <= |all| && averaged <= averageMax
        invariant all[averaged..] == Gradients(samples[..i + 1])
        invariant sum == Sum(all[..averaged])
      {
        var grad := Gradient(samples[i], samples[i - 1]);
        NextGradient(samples, i, all, averaged);
        if Admissible(grad) {
          sum := sum + grad;
          averaged := averaged + 1;
          if averaged > averageMax {
            break;
          }
        }
        i := i - 1;
      }
      assert all[..averaged] == Averaged(View());
    }

    /** With an averageMin of zero and no admissible gradient, zero is divided by zero and the number
        that comes out is not defined: none is returned. */
    method GetRemaining() returns (remaining: Option<nat>)
      ensures remaining == if Undefined(View()) then None else Some(Remaining(View()))
    {
      var length := |samples|;
      if length < 2 {
        return Some(0);
      }
      var averaged, sum := SumGradients();
      if averaged < averageMin {
        return Some(0);
      }
      if averaged == 0 {
        return None;
      }
      AveragedAdmissible(View());
      var mean := sum / averaged as real;
      assert mean == Mean(Averaged(View()));
      var left := UintSub(100, samples[length - 1].percentage);
      var estimated := left as real / mean / 1000.0;
      if estimated < valueMin as real {
        estimated := 0.0;
      } else if estimated > valueMax as real {
        estimated := 0.0;
      }
      remaining := Some(estimated.Floor);
    }
  }
}
