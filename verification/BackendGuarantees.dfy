/** What clients are promised about an epoch of the backend: the time from one accepted reset to the
    next. */
module BackendGuarantees {
  import opened Shared
  import opened Packages
  import opened BackendModel
  import opened BackendProofs

  // ----- runs and epochs -----

  lemma {:induction false} DoAllAppend(b: Backend, p: seq<Call>, q: seq<Call>)
    ensures DoAll(b, p + q) == DoAll(DoAll(b, p), q)
    decreases |p|
  {
    if p == [] {
      assert p + q == q;
    } else {
      assert (p + q)[1..] == p[1..] + q;
      DoAllAppend(Do(b, p[0]), p[1..], q);
    }
  }

  lemma {:induction false} DoAllThen(b: Backend, p: seq<Call>, c: Call)
    ensures DoAll(b, p + [c]) == Do(DoAll(b, p), c)
  {
    DoAllAppend(b, p, [c]);
    assert [c][1..] == [];
  }

  /** No reset among the calls is accepted. */
  predicate OneEpoch(b: Backend, calls: seq<Call>)
    decreases |calls|
  {
    calls == [] || (!(calls[0].CallReset? && b.status != StatusRunning) && OneEpoch(Do(b, calls[0]), calls[1..]))
  }

  lemma {:induction false} OneEpochAppend(b: Backend, p: seq<Call>, q: seq<Call>)
    ensures OneEpoch(b, p + q) <==> OneEpoch(b, p) && OneEpoch(DoAll(b, p), q)
    decreases |p|
  {
    if p == [] {
      assert p + q == q;
    } else {
      assert (p + q)[1..] == p[1..] + q;
      OneEpochAppend(Do(b, p[0]), p[1..], q);
    }
  }

  // ----- the exit that is delivered -----

  /** The first exit that any call asks for. */
  function FirstExit(calls: seq<Call>): Exit {
    if calls == [] then ExitUnknown
    else match calls[0]
      case CallError(code) => ExitFor(code)
      case CallExit(exit) => if exit == ExitUnknown then FirstExit(calls[1..]) else exit
      case _ => FirstExit(calls[1..])
  }

  function OrElse(exit: Exit, other: Exit): Exit { if exit == ExitUnknown then other else exit }

  /** What one call within an epoch may do to the life of a backend. */
  predicate LivesOn(b: Backend, c: Call, r: Backend) {
    && r.past == b.past
    && (b.life.finished ==> r.life.finished) && (b.life.setError ==> r.life.setError)
    && FinishesIn(r.trace) >= FinishesIn(b.trace)
    && (c.CallError? ==> r.life.setError)
    && (FinishesIn(r.trace) == 0 ==> r.life.exit == OrElse(b.life.exit, FirstExit([c])))
    && (b.life.exit != ExitUnknown ==> r.life.exit == b.life.exit)
    && (FinishesIn(r.trace) == FinishesIn(b.trace) || (c.CallFinishTimer? && r == FinishedDelay(b)))
  }

  lemma {:induction false} ErrorLivesOn(b: Backend, code: ErrorCode)
    requires Inv(b)
    ensures LivesOn(b, CallError(code), Error(b, code))
  {
    assert FirstExit([CallError(code)]) == ExitFor(code);
    if !b.life.setError { ErrorEffect(b, code); }
  }

  lemma {:induction false} ErrorTimerLivesOn(b: Backend)
    requires Inv(b)
    ensures LivesOn(b, CallErrorTimer, ErrorTimeout(b))
  {
    assert FirstExit([CallErrorTimer]) == ExitUnknown by { assert [CallErrorTimer][1..] == []; }
    var b1 := Emit(b, MessageSignal(BackendError));
    EmitQuiet(b, MessageSignal(BackendError));
    if b.life.errorTimer && !b.life.finished {
      FinishedEffect(b1);
      assert ErrorTimeout(b) == ClearErrorTimer(FinishedCall(b1));
    }
  }

  lemma {:induction false} FinishTimerLivesOn(b: Backend)
    requires Inv(b)
    ensures LivesOn(b, CallFinishTimer, FinishTimeout(b))
  {
    assert FirstExit([CallFinishTimer]) == ExitUnknown by { assert [CallFinishTimer][1..] == []; }
    if b.life.finishTimer {
      FinishedDelayEffect(b);
    } else {
      assert FinishTimeout(b) == b;
    }
  }

  /** The life of a backend after one call within an epoch. */
  lemma {:induction false} LifeStep(b: Backend, c: Call)
    requires Inv(b) && OneEpoch(b, [c])
    ensures LivesOn(b, c, Do(b, c))
  {
    assert [c][1..] == [];
    if IsQuietCall(c) {
      QuietCall(b, c);
    } else {
      match c
      case CallPackage(info, id, summary) => PackageKeepsInv(b, info, id, summary);
      case CallSimultaneous(_) =>
      case CallError(code) => ErrorLivesOn(b, code);
      case CallExit(_) =>
      case CallFinished => if !b.life.finished { FinishedEffect(b); }
      case CallErrorTimer => ErrorTimerLivesOn(b);
      case CallFinishTimer => FinishTimerLivesOn(b);
      case CallReset(_) =>
    }
  }

  lemma {:induction false} LifeRun(b: Backend, calls: seq<Call>)
    requires Inv(b) && OneEpoch(b, calls)
    ensures var r := DoAll(b, calls);
            && Inv(r) && r.past == b.past
            && (b.life.finished ==> r.life.finished) && (b.life.setError ==> r.life.setError)
            && FinishesIn(r.trace) >= FinishesIn(b.trace)
            && (b.life.exit != ExitUnknown ==> r.life.exit == b.life.exit)
            && (FinishesIn(r.trace) == 0 ==> r.life.exit == OrElse(b.life.exit, FirstExit(calls)))
            && (FinishesIn(r.trace) == 0 && (exists code :: CallError(code) in calls) ==> r.life.setError)
    decreases |calls|
  {
    if calls != [] {
      DoKeepsInv(b, calls[0]);
      LifeStep(b, calls[0]);
      LifeRun(Do(b, calls[0]), calls[1..]);
      FirstExitStep(calls);
      assert forall code :: CallError(code) in calls ==> CallError(code) == calls[0] || CallError(code) in calls[1..];
    }
  }

  lemma {:induction false} FirstExitStep(calls: seq<Call>)
    requires calls != []
    ensures FirstExit(calls) == OrElse(FirstExit([calls[0]]), FirstExit(calls[1..]))
  {
    assert [calls[0]][1..] == [];
  }

  /** The call at `k` is the finish timer, and it emits the first finish signal, which says the first
      exit that was asked for before, or success if none was. */
  predicate DeliveredAt(b: Backend, calls: seq<Call>, k: nat)
    requires k < |calls|
  {
    var before := DoAll(b, calls[..k]);
    && calls[k] == CallFinishTimer
    && FinishesIn(before.trace) == 0
    && DoAll(b, calls[..k + 1]).trace == before.trace + [FinishedSignal(OrElse(FirstExit(calls[..k]), Success))]
  }

  lemma {:induction false} DeliveredLast(b: Backend, before: seq<Call>, c: Call)
    requires Inv(b) && FinishesIn(b.trace) == 0 && b.life.exit == ExitUnknown
    requires OneEpoch(b, before + [c])
    requires FinishesIn(DoAll(b, before).trace) == 0 && FinishesIn(DoAll(b, before + [c]).trace) != 0
    ensures DeliveredAt(b, before + [c], |before|)
  {
    var calls, r := before + [c], DoAll(b, before);
    DoAllThen(b, before, c);
    OneEpochAppend(b, before, [c]);
    LifeRun(b, before);
    assert calls[..|before|] == before && calls[..|before| + 1] == calls;
    LifeStep(r, c);
    FinishedDelayEffect(r);
  }

  /** Every finish signal of an epoch is delivered like that. */
  lemma {:induction false} FinishIsHonest(b: Backend, calls: seq<Call>)
    requires Inv(b) && FinishesIn(b.trace) == 0 && b.life.exit == ExitUnknown
    requires OneEpoch(b, calls) && FinishesIn(DoAll(b, calls).trace) != 0
    ensures exists k :: 0 <= k < |calls| && DeliveredAt(b, calls, k)
    decreases |calls|
  {
    assert calls != [];
    var n := |calls| - 1;
    var before := calls[..n];
    assert calls == before + [calls[n]];
    if FinishesIn(DoAll(b, before).trace) != 0 {
      OneEpochAppend(b, before, [calls[n]]);
      FinishIsHonest(b, before);
      var k :| 0 <= k < n && DeliveredAt(b, before, k);
      assert before[..k] == calls[..k] && before[..k + 1] == calls[..k + 1];
      assert DeliveredAt(b, calls, k);
    } else {
      DeliveredLast(b, before, calls[n]);
    }
  }

  /** The exit that one call asks for. */
  function ExitOf(c: Call): Exit {
    match c
    case CallError(code) => ExitFor(code)
    case CallExit(exit) => exit
    case _ => ExitUnknown
  }

  predicate FirstWrite(calls: seq<Call>, i: nat)
    requires i < |calls|
  {
    ExitOf(calls[i]) != ExitUnknown && forall j :: 0 <= j < i ==> ExitOf(calls[j]) == ExitUnknown
  }

  /** The first exit asked for, or success for want of one, is success exactly when nothing asked, or the
      first call that did was a success written by hand. */
  lemma {:induction false} SuccessExactly(calls: seq<Call>)
    ensures OrElse(FirstExit(calls), Success) == Success
       <==> (forall c :: c in calls ==> ExitOf(c) == ExitUnknown)
            || (exists i :: 0 <= i < |calls| && FirstWrite(calls, i) && calls[i] == CallExit(Success))
  {
    FirstWritten(calls);
    if i :| 0 <= i < |calls| && FirstWrite(calls, i) {
      assert calls[i] in calls;
      forall j | 0 <= j < |calls| && FirstWrite(calls, j) ensures j == i {
        if j < i {} else if i < j {}
      }
    }
  }

  lemma {:induction false} FirstWritten(calls: seq<Call>)
    ensures FirstExit(calls) == ExitUnknown ==> forall c :: c in calls ==> ExitOf(c) == ExitUnknown
    ensures FirstExit(calls) != ExitUnknown ==>
              exists i :: 0 <= i < |calls| && FirstWrite(calls, i) && ExitOf(calls[i]) == FirstExit(calls)
  {
    if calls == [] {
    } else if ExitOf(calls[0]) != ExitUnknown {
      assert FirstWrite(calls, 0);
    } else {
      FirstWritten(calls[1..]);
      assert forall c :: c in calls ==> c == calls[0] || c in calls[1..];
      if FirstExit(calls) != ExitUnknown {
        var i :| 0 <= i < |calls[1..]| && FirstWrite(calls[1..], i) && ExitOf(calls[1..][i]) == FirstExit(calls);
        forall j | 0 <= j < i + 1 ensures ExitOf(calls[j]) == ExitUnknown {
          if j > 0 { assert calls[j] == calls[1..][j - 1]; }
        }
        assert FirstWrite(calls, i + 1);
      }
    }
  }

  /** A finish that is delivered by the call at `k` is the only one of the epoch, and says that exit. */
  lemma {:induction false} DeliveredExit(b: Backend, calls: seq<Call>, k: nat)
    requires Inv(b) && FinishesIn(b.trace) == 0 && OneEpoch(b, calls)
    requires k < |calls| && DeliveredAt(b, calls, k)
    ensures ExitsIn(DoAll(b, calls).trace) == [OrElse(FirstExit(calls[..k]), Success)]
  {
    var p, q := calls[..k + 1], calls[k + 1..];
    assert calls == p + q;
    OneEpochAppend(b, p, q);
    DoAllAppend(b, p, q);
    LifeRun(b, p);
    var r, e := DoAll(b, p), OrElse(FirstExit(calls[..k]), Success);
    TraceStep(DoAll(b, calls[..k]).trace, FinishedSignal(e));
    assert ExitsIn(r.trace) == [e] && r.life.exit == e;
    LifeRun(r, q);
  }

  /** The grace timer fires while it is pending. */
  predicate GraceTimeEnds(b: Backend, calls: seq<Call>, k: nat)
    requires k < |calls|
  {
    calls[k] == CallFinishTimer && DoAll(b, calls[..k]).life.finishTimer
  }

  lemma {:induction false} TimerDelivers(b: Backend)
    requires LifeInv(b)
    ensures b.life.finishTimer <==>
              && FinishesIn(b.trace) == 0
              && FinishTimeout(b).trace == b.trace + [FinishedSignal(OrElse(b.life.exit, Success))]
  {
    FinishedDelayEffect(b);
  }

  lemma {:induction false} DeliveredExactly(b: Backend, calls: seq<Call>, k: nat)
    requires Inv(b) && FinishesIn(b.trace) == 0 && b.life.exit == ExitUnknown && OneEpoch(b, calls) && k < |calls|
    ensures DeliveredAt(b, calls, k) <==> GraceTimeEnds(b, calls, k)
  {
    var p, q := calls[..k], calls[k..];
    assert calls == p + q && calls[..k + 1] == p + [calls[k]];
    OneEpochAppend(b, p, q);
    LifeRun(b, p);
    DoAllThen(b, p, calls[k]);
    TimerDelivers(DoAll(b, p));
  }

  predicate AsksForNothing(calls: seq<Call>) { forall c :: c in calls ==> ExitOf(c) == ExitUnknown }

  predicate AsksForSuccessFirst(calls: seq<Call>) {
    exists i :: 0 <= i < |calls| && FirstWrite(calls, i) && calls[i] == CallExit(Success)
  }

  /** An epoch says success exactly when its grace time ended and before that nothing had asked for an
      exit, or a success written by hand was the first to; no error can come before it. */
  lemma {:induction false} SuccessDeliveredExactly(b: Backend, calls: seq<Call>)
    requires Inv(b) && FinishesIn(b.trace) == 0 && b.life.exit == ExitUnknown && OneEpoch(b, calls)
    ensures ExitsIn(DoAll(b, calls).trace) == [Success] <==>
              exists k :: 0 <= k < |calls| && GraceTimeEnds(b, calls, k)
                          && (AsksForNothing(calls[..k]) || AsksForSuccessFirst(calls[..k]))
  {
    if FinishesIn(DoAll(b, calls).trace) != 0 { FinishIsHonest(b, calls); }
    forall k | 0 <= k < |calls| ensures DeliveredAt(b, calls, k) <==> GraceTimeEnds(b, calls, k) {
      DeliveredExactly(b, calls, k);
    }
    forall k | 0 <= k < |calls| && DeliveredAt(b, calls, k)
      ensures ExitsIn(DoAll(b, calls).trace) == [Success]
         <==> AsksForNothing(calls[..k]) || AsksForSuccessFirst(calls[..k])
    {
      DeliveredExit(b, calls, k);
      SuccessExactly(calls[..k]);
    }
  }

  /** A client that cancels in time is told so: once the exit is written, no error, finish or later exit
      changes what is delivered, and nothing else is. */
  lemma {:induction false} CancelIsHonoured(b: Backend, calls: seq<Call>)
    requires Inv(b) && b.life.exit == ExitUnknown && OneEpoch(SetExit(b, Cancelled), calls)
    ensures var exits := ExitsIn(DoAll(SetExit(b, Cancelled), calls).trace);
            exits == [] || exits == [Cancelled]
  {
    DoKeepsInv(b, CallExit(Cancelled));
    assert Do(b, CallExit(Cancelled)) == SetExit(b, Cancelled);
    LifeRun(SetExit(b, Cancelled), calls);
  }

  /** A reset delivers a finish that was still waiting for its grace time, and nothing else. */
  lemma {:induction false} ResetDelivers(b: Backend, calls: seq<Call>, now: nat)
    requires Inv(b) && FinishesIn(b.trace) == 0 && b.life.exit == ExitUnknown && OneEpoch(b, calls)
    requires DoAll(b, calls).status != StatusRunning
    ensures var r := DoAll(b, calls);
            var delivered := if r.life.finishTimer then [FinishedSignal(OrElse(FirstExit(calls), Success))] else [];
            ResetCall(r, now).past == b.past + [r.trace + delivered]
  {
    LifeRun(b, calls);
    FinishedDelayEffect(DoAll(b, calls));
    assert DoAll(b, calls).trace + [] == DoAll(b, calls).trace;
  }

  /** An unfinished transaction is meant to be reported as needing repair. That write comes after
      the one for a failure and is refused, unless repair had been asked for already. */
  lemma {:induction false} RepairNeverReported(b: Backend, code: ErrorCode)
    ensures Error(b, code).life.exit == RepairRequired <==> b.life.exit == RepairRequired
  {
    if !b.life.setError { ErrorEffect(b, code); }
  }

  // ----- no hang after an error -----

  /** Once an error is set, the error timer and after it the finish timer bring the finish, whatever
      else is called before, between and after. */
  lemma {:induction false} ErrorIsFinished(b: Backend, p: seq<Call>, q: seq<Call>, rest: seq<Call>)
    requires Inv(b) && b.life.setError && OneEpoch(b, p + [CallErrorTimer] + q + [CallFinishTimer] + rest)
    ensures FinishesIn(DoAll(b, p + [CallErrorTimer] + q + [CallFinishTimer] + rest).trace) == 1
  {
    var calls := p + [CallErrorTimer] + q + [CallFinishTimer];
    OneEpochAppend(b, calls, rest);
    DoAllAppend(b, calls, rest);
    LifeRun(b, calls);
    TimersFinish(b, p, q);
    LifeRun(DoAll(b, calls), rest);
  }

  lemma {:induction false} TimersFinish(b: Backend, p: seq<Call>, q: seq<Call>)
    requires Inv(b) && b.life.setError && OneEpoch(b, p + [CallErrorTimer] + q + [CallFinishTimer])
    ensures FinishesIn(DoAll(b, p + [CallErrorTimer] + q + [CallFinishTimer]).trace) == 1
  {
    var r1 := DoAll(b, p);
    var r2 := DoAll(b, p + [CallErrorTimer]);
    var r3 := DoAll(b, p + [CallErrorTimer] + q);
    OneEpochAppend(b, p + [CallErrorTimer] + q, [CallFinishTimer]);
    OneEpochAppend(b, p + [CallErrorTimer], q);
    OneEpochAppend(b, p, [CallErrorTimer]);
    LifeRun(b, p);
    DoAllThen(b, p, CallErrorTimer);
    ErrorTimerFinishes(r1);
    DoKeepsInv(r1, CallErrorTimer);
    DoAllAppend(b, p + [CallErrorTimer], q);
    LifeRun(r2, q);
    DoAllThen(b, p + [CallErrorTimer] + q, CallFinishTimer);
    FinishedDelayEffect(r3);
  }

  lemma {:induction false} ErrorTimerFinishes(b: Backend)
    requires Inv(b) && b.life.setError
    ensures var r := ErrorTimeout(b);
            r.life.finished && r.life.exit == b.life.exit && (!b.life.finished ==> r.life.finishTimer)
  {
    if !b.life.finished {
      EmitQuiet(b, MessageSignal(BackendError));
      FinishedEffect(Emit(b, MessageSignal(BackendError)));
    }
  }

  /** The error itself comes with the timer, and from there two timers are enough. */
  lemma {:induction false} TwoTimersFinish(b: Backend, code: ErrorCode)
    requires Inv(b) && !b.life.setError && !b.life.finished
    ensures var e := Error(b, code);
            && e.life.errorTimer && e.life.exit != ExitUnknown && (e.life.exit == Success ==> b.life.exit == Success)
            && FinishTimeout(ErrorTimeout(e)).trace == ErrorTimeout(e).trace + [FinishedSignal(e.life.exit)]
  {
    ErrorEffect(b, code);
    ErrorKeepsInv(b, code);
    var e := Error(b, code);
    ErrorTimerFinishes(e);
    FinishedDelayEffect(ErrorTimeout(e));
  }

  /** The shortcut for missing methods does not look at the finished flag: after a delivered finish
      it delivers another. It forgets a grace timer that is pending, but does not remove it: when that
      fires there is one more. */
  lemma {:induction false} NotImplementedFinishesAgain(b: Backend)
    requires Inv(b)
    ensures FinishesIn(NotImplementedYet(b).trace) == FinishesIn(b.trace) + 1
    ensures b.life.finishTimer ==> FinishesIn(FinishedDelay(NotImplementedYet(b)).trace) == 2
  {
    if !b.life.setError { ErrorEffect(b, NotSupported); }
    FinishedDelayEffect(Error(b, NotSupported));
    FinishedDelayEffect(NotImplementedYet(b));
  }

  // ----- silence after an error -----

  predicate Allowed(s: Signal) {
    s == MessageSignal(BackendError) || s == AllowCancelSignal(false) || s.FinishedSignal? ||
    s == StatusChanged(StatusFinished) || s == StatusChanged(StatusRunning)
  }

  /** Only these signals, and a running status only directly before the finished status. */
  predicate Silent(t: seq<Signal>) {
    && (forall i :: 0 <= i < |t| ==> Allowed(t[i]))
    && (forall i :: 0 <= i < |t| && t[i] == StatusChanged(StatusRunning) ==>
          i + 1 < |t| && t[i + 1] == StatusChanged(StatusFinished))
  }

  /** The signals by which `r` went on from `b`. */
  function Tail(b: Backend, r: Backend): seq<Signal>
    requires |b.trace| <= |r.trace|
  {
    r.trace[|b.trace|..]
  }

  predicate Extends(b: Backend, r: Backend) { |b.trace| <= |r.trace| && r.trace[..|b.trace|] == b.trace }

  function One(c: bool): nat { if c then 1 else 0 }

  /** `r` follows `b` silently, and says at most once that it is finished and cannot be cancelled. */
  predicate Silently(b: Backend, r: Backend) {
    && r.life.setError && Extends(b, r) && Silent(Tail(b, r))
    && multiset(Tail(b, r))[StatusChanged(StatusFinished)]
       == One(r.status == StatusFinished && b.status != StatusFinished)
    && (b.status == StatusFinished ==> r.status == StatusFinished)
    && multiset(Tail(b, r))[AllowCancelSignal(false)] == One(r.allowCancel == HintFalse && b.allowCancel != HintFalse)
    && (b.allowCancel == HintFalse ==> r.allowCancel == HintFalse)
  }

  lemma {:induction false} TailThen(a: Backend, b: Backend, c: Backend)
    requires Extends(a, b) && Extends(b, c)
    ensures Extends(a, c) && Tail(a, c) == Tail(a, b) + Tail(b, c)
  {
  }

  lemma {:induction false} SilentThen(s: seq<Signal>, t: seq<Signal>)
    requires Silent(s) && Silent(t)
    ensures Silent(s + t)
  {
    assert forall i :: |s| <= i < |s + t| ==> (s + t)[i] == t[i - |s|];
    assert forall i :: 0 <= i < |s| ==> (s + t)[i] == s[i];
  }

  lemma {:induction false} SilentlyThen(a: Backend, b: Backend, c: Backend)
    requires Silently(a, b) && Silently(b, c)
    ensures Silently(a, c)
  {
    TailThen(a, b, c);
    SilentThen(Tail(a, b), Tail(b, c));
  }

  lemma {:induction false} SilentlySame(b: Backend, r: Backend)
    requires b.life.setError && r.life.setError && r.trace == b.trace
    requires r.status == b.status && r.allowCancel == b.allowCancel
    ensures Silently(b, r)
  {
    assert Tail(b, r) == [];
  }

  /** One more signal that is neither of the two that are counted. */
  lemma {:induction false} SilentlyOne(b: Backend, r: Backend, s: Signal)
    requires b.life.setError && r.life.setError && r.trace == b.trace + [s]
    requires r.status == b.status && r.allowCancel == b.allowCancel
    requires s == MessageSignal(BackendError) || s.FinishedSignal?
    ensures Silently(b, r)
  {
    assert Tail(b, r) == [s];
  }

  lemma {:induction false} StatusSilently(b: Backend, status: Status)
    requires b.life.setError
    ensures Silently(b, SetStatus(b, status))
    ensures SetStatus(b, status).life == b.life
  {
    var r := SetStatus(b, status);
    if r == b {
      SilentlySame(b, r);
    } else if b.status == StatusSetup {
      assert r.trace == b.trace + [StatusChanged(StatusRunning)] + [StatusChanged(StatusFinished)];
      assert Tail(b, r) == [StatusChanged(StatusRunning), StatusChanged(StatusFinished)];
    } else {
      assert Tail(b, r) == [StatusChanged(StatusFinished)];
    }
  }

  lemma {:induction false} AllowCancelSilently(b: Backend, allow: bool)
    requires b.life.setError
    ensures Silently(b, SetAllowCancel(b, allow))
    ensures SetAllowCancel(b, allow).life == b.life
  {
    var r := SetAllowCancel(b, allow);
    if r == b {
      SilentlySame(b, r);
    } else {
      assert Tail(b, r) == [AllowCancelSignal(false)];
    }
  }

  lemma {:induction false} EmulateAfterError(b: Backend)
    requires b.life.setError && PackageInv(b)
    ensures var r := EmulateFinished(b);
            r.life == b.life && r.trace == b.trace && r.status == b.status && r.allowCancel == b.allowCancel
  {
    if EmulateFinished(b) != b {
      PackageAfterError(b, InfoFinished, b.stream.lastPackage.value.id, b.stream.lastPackage.value.summary);
    }
  }

  lemma {:induction false} FinishedSilently(b: Backend)
    requires Inv(b) && b.life.setError
    ensures Silently(b, FinishedCall(b))
  {
    if b.life.finished {
      SilentlySame(b, b);
    } else {
      assert FinishMessages(b) == ClearErrorTimer(b);
      var b1 := EmulateFinished(ClearErrorTimer(b));
      EmulateAfterError(ClearErrorTimer(b));
      var b2 := SetAllowCancel(b1, false);
      var b3 := SetStatus(b2, StatusFinished);
      SilentlySame(b, b1);
      AllowCancelSilently(b1, false);
      StatusSilently(b2, StatusFinished);
      SilentlySame(b3, MarkFinished(b3));
      SilentlyThen(b, b1, b2);
      SilentlyThen(b, b2, b3);
      SilentlyThen(b, b3, MarkFinished(b3));
    }
  }

  predicate StartsRole(b: Backend, c: Call) {
    || (c.CallStartRole? && (b.role == RoleUnknown || b.role == c.role))
    || (c.CallSetRole? && (b.role == RoleUnknown || b.role == c.role))
  }

  lemma {:induction false} ErrorTimeoutSilently(b: Backend)
    requires Inv(b) && b.life.setError
    ensures Silently(b, ErrorTimeout(b))
  {
    var r := ErrorTimeout(b);
    if !b.life.errorTimer || b.life.finished {
      SilentlySame(b, r);
    } else {
      var b1 := Emit(b, MessageSignal(BackendError));
      var b2 := FinishedCall(b1);
      EmitQuiet(b, MessageSignal(BackendError));
      SilentlyOne(b, b1, MessageSignal(BackendError));
      FinishedSilently(b1);
      SilentlyThen(b, b1, b2);
      SilentlySame(b2, r);
      SilentlyThen(b, b2, r);
    }
  }

  lemma {:induction false} FinishTimeoutSilently(b: Backend)
    requires b.life.setError
    ensures Silently(b, FinishTimeout(b))
  {
    var r := FinishTimeout(b);
    if b.life.finishTimer { SilentlyOne(b, r, FinishedSignal(r.life.exit)); } else { SilentlySame(b, r); }
  }

  lemma {:induction false} MessageSilently(b: Backend, kind: MessageKind)
    requires b.life.setError
    ensures Silently(b, Message(b, kind))
  {
    var r := Message(b, kind);
    if r == b { SilentlySame(b, r); } else { SilentlyOne(b, r, MessageSignal(BackendError)); }
  }

  /** The calls that change nothing that clients see once an error is set. */
  predicate MuteAfterError(c: Call) {
    c.CallPercentage? || c.CallSpeed? || c.CallItemProgress? || c.CallSubPercentage? || c.CallFiles? ||
    c.CallData? || c.CallSimultaneous? || c.CallError? || c.CallExit? || c.CallStartRole? || c.CallSetRole? ||
    c.CallReset?
  }

  lemma {:induction false} MuteSilently(b: Backend, c: Call)
    requires b.life.setError && OneEpoch(b, [c]) && !StartsRole(b, c) && MuteAfterError(c)
    ensures Silently(b, Do(b, c))
  {
    SilentlySame(b, Do(b, c));
  }

  lemma {:induction false} StepSilently(b: Backend, c: Call)
    requires Inv(b) && b.life.setError && OneEpoch(b, [c]) && !StartsRole(b, c)
    ensures Silently(b, Do(b, c))
  {
    match c
    case CallPackage(info, id, summary) =>
      PackageAfterError(b, info, id, summary);
      SilentlySame(b, PackageCall(b, info, id, summary));
    case CallStatus(status) => StatusSilently(b, status);
    case CallAllowCancel(allow) => AllowCancelSilently(b, allow);
    case CallMessage(kind) => MessageSilently(b, kind);
    case CallFinished => FinishedSilently(b);
    case CallErrorTimer => ErrorTimeoutSilently(b);
    case CallFinishTimer => FinishTimeoutSilently(b);
    case _ => MuteSilently(b, c);
  }

  /** No role is started by any of the calls. */
  predicate NoRoleStarts(b: Backend, calls: seq<Call>)
    decreases |calls|
  {
    calls == [] || (!StartsRole(b, calls[0]) && NoRoleStarts(Do(b, calls[0]), calls[1..]))
  }

  /** From an error on until the next role or reset, whatever is called, the backend only complains,
      withdraws cancelling at most once, and becomes finished at most once. */
  lemma {:induction false} ErrorSilence(b: Backend, calls: seq<Call>)
    requires Inv(b) && b.life.setError && OneEpoch(b, calls) && NoRoleStarts(b, calls)
    ensures Silently(b, DoAll(b, calls))
    decreases |calls|
  {
    if calls == [] {
      SilentlySame(b, b);
    } else {
      var b1 := Do(b, calls[0]);
      DoKeepsInv(b, calls[0]);
      StepSilently(b, calls[0]);
      ErrorSilence(b1, calls[1..]);
      SilentlyThen(b, b1, DoAll(b1, calls[1..]));
    }
  }
}
