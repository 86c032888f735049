/** The backend's percentages and the samples they leave for the estimator, over every sequence of
    calls and every clock that does not go back. */
module BackendProgress {
  import opened Shared
  import opened Packages
  import opened RemainingTime
  import opened BackendModel

  function PercentagesIn(t: seq<Signal>): seq<nat> {
    if t == [] then []
    else PercentagesIn(t[..|t| - 1]) + (if t[|t| - 1].PercentageNotify? then [t[|t| - 1].percentage] else [])
  }

  lemma {:induction false} PercentageStep(t: seq<Signal>, s: Signal)
    ensures PercentagesIn(t + [s]) == PercentagesIn(t) + (if s.PercentageNotify? then [s.percentage] else [])
  {
    assert (t + [s])[..|t|] == t;
  }

  /** Progress goes up; only 100 and the unknown percentage may be followed by less. */
  predicate Rising(ps: seq<nat>) {
    && (forall i :: 0 <= i < |ps| ==> ps[i] <= PERCENTAGE_INVALID)
    && (forall i :: 0 <= i < |ps| - 1 ==> ps[i] < ps[i + 1] || ps[i] >= 100)
  }

  function Latest(ps: seq<nat>): nat { if ps == [] then PERCENTAGE_DEFAULT else ps[|ps| - 1] }

  predicate DefaultLimits(t: TimeState) {
    && t.averageMin == AVERAGE_DEFAULT_MIN && t.averageMax == AVERAGE_DEFAULT_MAX
    && t.valueMin == VALUE_DEFAULT_MIN && t.valueMax == VALUE_DEFAULT_MAX
  }

  predicate InLimits(remaining: nat) {
    remaining == 0 || VALUE_DEFAULT_MIN <= remaining <= VALUE_DEFAULT_MAX
  }

  /** The percentages agree with the field, the samples are fit for the estimator, and what it
      answered is within its limits. */
  predicate ProgressInv(b: Backend, now: nat) {
    && Rising(PercentagesIn(b.trace)) && b.progress.percentage == Latest(PercentagesIn(b.trace))
    && SamplesSound(b.progress.time, now) && DefaultLimits(b.progress.time) && InLimits(b.progress.remaining)
  }

  // ----- calls that do not touch the progress -----

  predicate Steady(b: Backend, r: Backend) {
    && r.progress.percentage == b.progress.percentage && r.progress.time == b.progress.time
    && r.progress.remaining == b.progress.remaining && PercentagesIn(r.trace) == PercentagesIn(b.trace)
  }

  lemma {:induction false} EmitSteady(b: Backend, s: Signal)
    requires !s.PercentageNotify?
    ensures Steady(b, Emit(b, s))
  {
    PercentageStep(b.trace, s);
  }

  lemma {:induction false} MessageSteady(b: Backend, kind: MessageKind)
    ensures Steady(b, Message(b, kind))
  {
    EmitSteady(b, MessageSignal(kind));
  }

  lemma {:induction false} StatusSteady(b: Backend, status: Status)
    ensures Steady(b, SetStatus(b, status))
  {
    var r := SetStatus(b, status);
    if r == b {
    } else if status == StatusWait {
      MessageSteady(b, BackendError);
    } else if status != StatusRunning && status != StatusSetup && b.status == StatusSetup {
      var b1 := Emit(b, StatusChanged(StatusRunning));
      EmitSteady(b, StatusChanged(StatusRunning));
      EmitSteady(b1.(status := status), StatusChanged(status));
      assert r == Emit(b1.(status := status), StatusChanged(status));
    } else {
      EmitSteady(b.(status := status), StatusChanged(status));
      assert r == Emit(b.(status := status), StatusChanged(status));
    }
  }

  lemma {:induction false} AllowCancelSteady(b: Backend, allow: bool)
    ensures Steady(b, SetAllowCancel(b, allow))
  {
    EmitSteady(b, AllowCancelSignal(allow));
  }

  lemma {:induction false} SendSteady(b: Backend, item: Package)
    ensures Steady(b, SendPackage(b, item))
  {
    var r := SendPackage(b, item);
    if r != b {
      var status := if b.stream.simultaneous then None else StatusFor(item.info);
      var b1 := if status.Some? then SetStatus(b, status.value) else b;
      if status.Some? { StatusSteady(b, status.value); }
      EmitSteady(b1, PackageSignal(item));
      assert r.trace == Emit(b1, PackageSignal(item)).trace;
    }
  }

  lemma {:induction false} PackageSteady(b: Backend, info: Info, id: string, summary: Option<string>)
    ensures Steady(b, PackageCall(b, info, id, summary))
    decreases if info == InfoFinished then 0 else 1
  {
    var item := ItemOf(b, info, id, summary);
    var r := PackageCall(b, info, id, summary);
    if r != b {
      var b1 := if info != InfoFinished then EmulateFinishedForPackage(b, item) else b;
      if b1 != b {
        PackageSteady(b, InfoFinished, b.stream.lastPackage.value.id, b.stream.lastPackage.value.summary);
      }
      SendSteady(Remember(b1, item), item);
      assert r == SendPackage(Remember(b1, item), item);
    }
  }

  lemma {:induction false} ComplainSteady(b: Backend, missing: bool)
    ensures Steady(b, Complain(b, missing))
  {
    MessageSteady(b, BackendError);
  }

  lemma {:induction false} FinishedSteady(b: Backend)
    ensures Steady(b, FinishedCall(b))
  {
    if !b.life.finished {
      var b1 := Complain(b, !b.stream.hasSentPackage && ShouldSendPackages(b.role));
      ComplainSteady(b, !b.stream.hasSentPackage && ShouldSendPackages(b.role));
      var b2 := Complain(b1, b1.role == DownloadPackages && b1.downloadFiles == 0);
      ComplainSteady(b1, b1.role == DownloadPackages && b1.downloadFiles == 0);
      ComplainSteady(ClearErrorTimer(b2), b2.status == StatusSetup);
      var b3 := FinishMessages(b);
      if EmulateFinished(b3) != b3 {
        PackageSteady(b3, InfoFinished, b3.stream.lastPackage.value.id, b3.stream.lastPackage.value.summary);
      }
      var b4 := EmulateFinished(b3);
      AllowCancelSteady(b4, false);
      StatusSteady(SetAllowCancel(b4, false), StatusFinished);
    }
  }

  predicate TouchesProgress(c: Call) {
    c.CallPercentage? || c.CallStartRole? || c.CallSetRole? || c.CallReset?
  }

  lemma {:induction false} OthersSteady(b: Backend, c: Call)
    requires !TouchesProgress(c)
    ensures Steady(b, Do(b, c))
  {
    match c
    case CallPackage(info, id, summary) => PackageSteady(b, info, id, summary);
    case CallStatus(status) => StatusSteady(b, status);
    case CallMessage(kind) => MessageSteady(b, kind);
    case CallAllowCancel(allow) => AllowCancelSteady(b, allow);
    case CallFinished => FinishedSteady(b);
    case CallErrorTimer =>
      EmitSteady(b, MessageSignal(BackendError));
      FinishedSteady(Emit(b, MessageSignal(BackendError)));
    case _ => OneSignalSteady(b, c);
  }

  lemma {:induction false} OneSignalSteady(b: Backend, c: Call)
    requires c.CallSpeed? || c.CallItemProgress? || c.CallSubPercentage? || c.CallFiles? || c.CallData?
          || c.CallSimultaneous? || c.CallError? || c.CallExit? || c.CallFinishTimer?
    ensures Steady(b, Do(b, c))
  {
    var r := Do(b, c);
    if r.trace != b.trace {
      assert |r.trace| == |b.trace| + 1;
      var s := r.trace[|b.trace|];
      assert r.trace == b.trace + [s];
      PercentageStep(b.trace, s);
    }
  }

  // ----- the percentage itself -----

  lemma {:induction false} RemainingInLimits(t: TimeState)
    requires DefaultLimits(t)
    ensures InLimits(Remaining(t))
  {
    if Remaining(t) != 0 {
      AveragedAdmissible(t);
      assert forall g :: g in Averaged(t) ==> Admissible(g);
      RemainingBounds(t, 0.00001, 100.0);
    }
  }

  lemma {:induction false} RisesByOne(ps: seq<nat>, percentage: nat)
    requires Rising(ps) && percentage <= PERCENTAGE_INVALID
    requires ps == [] || ps[|ps| - 1] < percentage || ps[|ps| - 1] >= 100
    ensures Rising(ps + [percentage])
  {
  }

  lemma {:induction false} PercentageKeepsInv(b: Backend, percentage: nat, before: nat, now: nat)
    requires ProgressInv(b, before) && before <= now
    ensures ProgressInv(SetPercentage(b, percentage, now), now)
  {
    var r := SetPercentage(b, percentage, now);
    SamplesGrowOld(b.progress.time, before, now);
    if r == b {
    } else if r == Message(b, BackendError) {
      MessageSteady(b, BackendError);
    } else {
      var b0 := b.(progress := b.progress.(percentage := percentage));
      var b1 := Emit(b0, PercentageNotify(percentage));
      PercentageStep(b.trace, PercentageNotify(percentage));
      RisesByOne(PercentagesIn(b.trace), percentage);
      if percentage == PERCENTAGE_INVALID {
        assert r == b1;
      } else {
        SamplesStaySound(b.progress.time, percentage, before, now);
        RemainingInLimits(r.progress.time);
        PercentageStep(b1.trace, RemainingNotify(r.progress.remaining));
        assert r == Emit(b1.(progress := r.progress), RemainingNotify(r.progress.remaining));
      }
    }
  }

  lemma {:induction false} SamplesGrowOld(t: TimeState, before: nat, now: nat)
    requires SamplesSound(t, before) && before <= now
    ensures SamplesSound(t, now)
  {
  }

  lemma {:induction false} StartRoleKeepsInv(b: Backend, role: Role, before: nat, now: nat)
    requires ProgressInv(b, before) && before <= now
    ensures ProgressInv(StartRole(b, role, now), now)
  {
    SamplesGrowOld(b.progress.time, before, now);
    PercentageStep(b.trace, StatusChanged(StatusWait));
  }

  // ----- every run -----

  /** The clock after a call: the calls that read it say what they saw. */
  function Clock(before: nat, c: Call): nat { if TouchesProgress(c) then c.at else before }

  predicate Clocked(before: nat, calls: seq<Call>)
    decreases |calls|
  {
    calls == [] || (before <= Clock(before, calls[0]) && Clocked(Clock(before, calls[0]), calls[1..]))
  }

  function ClockAfter(before: nat, calls: seq<Call>): nat
    decreases |calls|
  {
    if calls == [] then before else ClockAfter(Clock(before, calls[0]), calls[1..])
  }

  lemma {:induction false} DoKeepsProgress(b: Backend, c: Call, before: nat)
    requires ProgressInv(b, before) && before <= Clock(before, c)
    ensures ProgressInv(Do(b, c), Clock(before, c))
  {
    match c
    case CallPercentage(percentage, now) => PercentageKeepsInv(b, percentage, before, now);
    case CallStartRole(role, now) => StartRoleKeepsInv(b, role, before, now);
    case CallSetRole(role, now) => StartRoleKeepsInv(b.(transactionRole := role), role, before, now);
    case CallReset(now) => SamplesGrowOld(b.progress.time, before, now);
    case _ => OthersSteady(b, c);
  }

  lemma {:induction false} ProgressAlwaysSound(b: Backend, calls: seq<Call>, before: nat)
    requires ProgressInv(b, before) && Clocked(before, calls)
    ensures ProgressInv(DoAll(b, calls), ClockAfter(before, calls))
    decreases |calls|
  {
    if calls != [] {
      DoKeepsProgress(b, calls[0], before);
      ProgressAlwaysSound(Do(b, calls[0]), calls[1..], Clock(before, calls[0]));
    }
  }

  lemma {:induction false} NewEpochProgress(simultaneous: bool, useTime: bool, now: nat, past: seq<seq<Signal>>)
    ensures ProgressInv(NewEpoch(simultaneous, useTime, now, past), now)
  {
  }

  /** Between two values of 100 or more, the percentages of every run strictly increase. */
  lemma {:induction false} PercentagesIncrease(b: Backend, calls: seq<Call>, before: nat, i: nat, j: nat)
    requires ProgressInv(b, before) && Clocked(before, calls)
    requires var ps := PercentagesIn(DoAll(b, calls).trace);
             i < j < |ps| && forall k :: i <= k < j ==> ps[k] < 100
    ensures var ps := PercentagesIn(DoAll(b, calls).trace); ps[i] < ps[j]
    decreases j
  {
    ProgressAlwaysSound(b, calls, before);
    if i < j - 1 { PercentagesIncrease(b, calls, before, i, j - 1); }
  }

  /** In every reachable state, within the range of the counter, neither the gradients nor the
      percentage that is left are computed with a wrap-around. */
  lemma {:induction false} EstimatorNeverWraps(b: Backend, calls: seq<Call>, before: nat, i: nat)
    requires ProgressInv(b, before) && Clocked(before, calls)
    requires var t := DoAll(b, calls).progress.time;
             Elapsed(t, ClockAfter(before, calls)) < UINT_RANGE && i < |t.samples|
    ensures var s := DoAll(b, calls).progress.time.samples;
            && UintSub(100, s[i].percentage) == 100 - s[i].percentage
            && (i > 0 ==>
                  && UintSub(s[i].percentage, s[i - 1].percentage) == s[i].percentage - s[i - 1].percentage
                  && UintSub(s[i].time, s[i - 1].time) == s[i].time - s[i - 1].time)
  {
    ProgressAlwaysSound(b, calls, before);
    NoWrap(DoAll(b, calls).progress.time, ClockAfter(before, calls), i);
  }
}
