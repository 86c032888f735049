/** Runs of the daemon that reach what its theorems exclude. */
module DaemonRuns {
  import opened Scheduler
  import opened SchedulerProofs
  import opened SchedulerProgress
  import opened BackendProofs
  import opened Daemon
  import B = BackendModel

  lemma {:induction false} HappenAllAppend(d: State, hs: seq<Happening>, more: seq<Happening>)
    ensures HappenAll(d, hs + more) == HappenAll(HappenAll(d, hs), more)
    decreases |hs|
  {
    if hs == [] {
      assert hs + more == more;
    } else {
      assert (hs + more)[1..] == hs[1..] + more;
      HappenAllAppend(Happen(d, hs[0]), hs[1..], more);
    }
  }

  lemma {:induction false} HappenOne(d: State, h: Happening)
    ensures HappenAll(d, [h]) == Happen(d, h)
  {
    assert [h][1..] == [];
  }

  lemma {:induction false} HappenThen(d: State, hs: seq<Happening>, h: Happening)
    ensures HappenAll(d, hs + [h]) == Happen(HappenAll(d, hs), h)
  {
    HappenAllAppend(d, hs, [h]);
    HappenOne(HappenAll(d, hs), h);
  }

  // ----- two listeners -----

  lemma {:induction false} ResetConnected(d: State, now: nat)
    ensures var r, s := Reset(d, now), d.backend;
            && r.backend == B.ResetCall(s, now)
            && r.connected == (if s.status != B.StatusRunning && s.life.finishTimer then [] else d.connected)
  {
    FinishedDelayEffect(d.backend);
  }

  /** What the first reset and the setup status leave: a finish still waiting only if the reset was
      refused. */
  lemma {:induction false} PrepareConnected(d: State, now: nat)
    requires Inv(d.backend)
    ensures var p, s := Prepare(d, now), d.backend;
            && (Spoilt(p.backend) <==> s.status == B.StatusRunning && Spoilt(s))
            && (!Spoilt(p.backend) ==> p.backend.status == B.StatusSetup)
            && p.backend.life.finishTimer == (s.status == B.StatusRunning && s.life.finishTimer)
            && p.connected == (if s.status != B.StatusRunning && s.life.finishTimer then [] else d.connected)
  {
    ResetConnected(d, now);
    Prepared(d.backend, now);
    StatusQuiet(B.ResetCall(d.backend, now), B.StatusSetup);
  }

  lemma {:induction false} StartShape(d: State, b: string, role: B.Role, now: nat)
    requires Listed(d.queue, b) && Get(d.queue, b).idle
    ensures var p := Prepare(d.(queue := RunIdle(d.queue, b)), now);
            Start(d, b, role, now).connected
            == if Spoilt(p.backend) then p.connected else Reset(p, now).connected + [b]
  {
  }

  /** Who listens after a transaction was started: a finish that still waited sends the others away. */
  lemma {:induction false} StartConnected(d: State, b: string, role: B.Role, now: nat)
    requires Inv(d.backend) && Listed(d.queue, b) && Get(d.queue, b).idle
    ensures var s := d.backend;
            Start(d, b, role, now).connected
            == if s.status == B.StatusRunning && Spoilt(s) then d.connected
               else (if s.life.finishTimer then [] else d.connected) + [b]
  {
    var d1 := d.(queue := RunIdle(d.queue, b));
    PrepareConnected(d1, now);
    ResetConnected(Prepare(d1, now), now);
    StartShape(d, b, role, now);
  }

  /** A transaction that runs is finished from outside, as a refused authorization to cancel it does,
      and the list starts the next. Both listen to the backend from then on, exactly unless the first
      had just finished by itself or the backend was left spoilt. */
  lemma {:induction false} SecondListenerExactly(d: State, a: string, b: string, role: B.Role, now: nat)
    requires Owned(d) && d.connected == [a]
    requires var q := Finish(d.queue, a); Listed(q, b) && Get(q, b).idle
    ensures var r, s := Start(Happen(d, ListStep(FinishSignalled(a))), b, role, now), d.backend;
            r.connected == [a, b] <==>
              && !s.life.finishTimer
              && !(s.status == B.StatusRunning && (s.life.setError || s.life.exit == B.SkipTransaction))
  {
    StartConnected(Happen(d, ListStep(FinishSignalled(a))), b, role, now);
  }

  /** From the empty daemon: two commits, the start of the first and its finish from outside, and both
      listen to the one backend. */
  lemma {:induction false} TwoListenersReachable(a: string, b: string, role: B.Role, useTime: bool, now: nat)
    returns (hs: seq<Happening>)
    requires a != b
    ensures HappenAll(Empty(useTime, now), hs).connected == [a, b]
  {
    var started := OneStarted(a, b, role, useTime, now);
    var d := HappenAll(Empty(useTime, now), started);
    SecondStarted(d.queue, a, b);
    SecondListenerExactly(d, a, b, role, now);
    HappenThen(Empty(useTime, now), started, ListStep(FinishSignalled(a)));
    var more := started + [ListStep(FinishSignalled(a))];
    HappenThen(Empty(useTime, now), more, RunTransaction(b, role, now));
    hs := more + [RunTransaction(b, role, now)];
  }

  /** The first of two committed transactions has the backend, and the second waits. */
  lemma {:induction false} OneStarted(a: string, b: string, role: B.Role, useTime: bool, now: nat)
    returns (hs: seq<Happening>)
    requires a != b
    ensures var d := HappenAll(Empty(useTime, now), hs);
            && Owned(d) && d.connected == [a] && NewlyClaimed(d.backend, role)
            && d.queue == [Started(a).(idle := false), Waiting(b)]
  {
    var e := Empty(useTime, now);
    EmptyIsOwned(useTime, now);
    var events := [Created(a, 0, 9), Created(b, 0, 9), CommitRequested(a)];
    TwoCommitted(a, b);
    ListRun(e, events);
    var steps := ListSteps(events);
    var d1 := HappenAll(e, steps);
    HappenThen(e, steps, ListStep(CommitRequested(b)));
    var d2 := HappenAll(e, steps + [ListStep(CommitRequested(b))]);
    assert d2 == e.(queue := [Started(a), Waiting(b)]);
    TwoCommittedOwned(a, b, d2);
    StartExactly(d2, a, role, now);
    StartKeepsOwner(d2, a, role, now);
    hs := steps + [ListStep(CommitRequested(b))] + [RunTransaction(a, role, now)];
    HappenThen(e, steps + [ListStep(CommitRequested(b))], RunTransaction(a, role, now));
  }

  lemma {:induction false} TwoCommittedOwned(a: string, b: string, d: State)
    requires a != b && d.queue == [Started(a), Waiting(b)] && d.connected == [] && Inv(d.backend)
    ensures Owned(d) && Listed(d.queue, a) && Get(d.queue, a) == Started(a)
    ensures RunIdle(d.queue, a) == [Started(a).(idle := false), Waiting(b)]
  {
    var q := d.queue;
    assert q[0] == Started(a) && q[1] == Waiting(b);
    FindAt(q, 0);
    FindAt(q, 1);
    Totals.TotalAppend([Started(a)], [Waiting(b)], RunningWeight);
    assert q == [Started(a)] + [Waiting(b)];
    forall tid | Listed(q, tid) ensures tid == a || tid == b {}
  }

  /** Steps of the list alone. */
  function ListSteps(events: seq<Event>): seq<Happening> {
    if events == [] then [] else [ListStep(events[0])] + ListSteps(events[1..])
  }

  lemma {:induction false} ListRun(d: State, events: seq<Event>)
    ensures HappenAll(d, ListSteps(events)) == d.(queue := Run(d.queue, events))
    decreases |events|
  {
    if events != [] {
      var h := ListStep(events[0]);
      assert ([h] + ListSteps(events[1..]))[1..] == ListSteps(events[1..]);
      ListRun(Happen(d, h), events[1..]);
    }
  }

  // ----- a spoilt backend -----

  /** After its finish a backend module may still set a status and report an error. */
  lemma {:induction false} StatusAfterFinish(b: B.Backend, code: B.ErrorCode)
    requires b.life.finished && !b.life.setError && b.status == B.StatusFinished
    ensures var r := B.Error(B.SetStatus(b, B.StatusRunning), code);
            && r.status == B.StatusRunning && Spoilt(r)
            && FinishesIn(B.SetStatus(b, B.StatusRunning).trace) == FinishesIn(b.trace)
            && FinishesIn(r.trace) == FinishesIn(b.trace)
  {
    StatusQuiet(b, B.StatusRunning);
    ErrorEffect(B.SetStatus(b, B.StatusRunning), code);
  }

  lemma {:induction false} FinishedStatus(b: B.Backend)
    requires Inv(b) && !b.life.finished && !b.life.setError
    ensures var r := B.FinishedCall(b);
            && r.status == B.StatusFinished && r.life.finished && r.life.finishTimer && !r.life.setError
            && FinishesIn(r.trace) == FinishesIn(b.trace)
  {
    FinishedEffect(b);
  }

  lemma {:induction false} SilentCall(d: State, c: B.Call)
    requires !Signals(d.backend, c)
    ensures Call(d, c) == d.(backend := B.Do(d.backend, c))
  {
  }

  lemma {:induction false} GraceTimeEnds(d: State, a: string)
    requires Owned(d) && d.connected == [a] && d.backend.life.finishTimer
    ensures var r := Call(d, B.CallFinishTimer);
            && Owned(r) && r.queue == Finish(d.queue, a) && r.connected == []
            && r.backend.status == d.backend.status && r.backend.life.finished == d.backend.life.finished
            && r.backend.life.setError == d.backend.life.setError
  {
    FinishedDelayEffect(d.backend);
    CallKeepsOwner(d, B.CallFinishTimer);
    SignalEndsOwner(d, a, B.CallFinishTimer);
  }

  /** The owner finishes in the ordinary way, and the next transaction is started by the list. */
  lemma {:induction false} OwnerFinishes(d: State, a: string, role: B.Role)
    requires Owned(d) && d.connected == [a] && NewlyClaimed(d.backend, role)
    ensures var d1 := Call(d, B.CallFinished);
            var d2 := Call(d1, B.CallFinishTimer);
            && Owned(d2) && d2.queue == Finish(d.queue, a) && d2.connected == []
            && d2.backend.status == B.StatusFinished && d2.backend.life.finished && !d2.backend.life.setError
  {
    FinishTaken(d, a, role);
    GraceTimeEnds(Call(d, B.CallFinished), a);
  }

  lemma {:induction false} FinishTaken(d: State, a: string, role: B.Role)
    requires Owned(d) && d.connected == [a] && NewlyClaimed(d.backend, role)
    ensures var r := Call(d, B.CallFinished);
            && Owned(r) && r.queue == d.queue && r.connected == [a]
            && r.backend.status == B.StatusFinished && r.backend.life.finished && r.backend.life.finishTimer
            && !r.backend.life.setError
  {
    var b := B.FinishedCall(d.backend);
    FinishedStatus(d.backend);
    assert B.Do(d.backend, B.CallFinished) == b && !Signals(d.backend, B.CallFinished);
    CallKeepsOwner(d, B.CallFinished);
    SilentCall(d, B.CallFinished);
    assert Call(d, B.CallFinished) == d.(backend := b);
  }

  lemma {:induction false} QuietCallKeeps(d: State, c: B.Call)
    requires Owned(d) && d.connected == [] && !Signals(d.backend, c)
    ensures var r := Call(d, c);
            Owned(r) && r.queue == d.queue && r.connected == [] && r.backend == B.Do(d.backend, c)
  {
    CallKeepsOwner(d, c);
  }

  lemma {:induction false} SpoiledCalls(d: State, code: B.ErrorCode)
    requires Owned(d) && d.connected == []
    requires d.backend.life.finished && !d.backend.life.setError && d.backend.status == B.StatusFinished
    ensures var r := Call(Call(d, B.CallStatus(B.StatusRunning)), B.CallError(code));
            && Owned(r) && r.queue == d.queue && r.connected == []
            && r.backend.status == B.StatusRunning && Spoilt(r.backend)
  {
    var c1, c2 := B.CallStatus(B.StatusRunning), B.CallError(code);
    var b1 := B.SetStatus(d.backend, B.StatusRunning);
    StatusAfterFinish(d.backend, code);
    assert B.Do(d.backend, c1) == b1 && B.Do(b1, c2) == B.Error(b1, code);
    QuietCallKeeps(d, c1);
    QuietCallKeeps(Call(d, c1), c2);
  }

  lemma {:induction false} SpoiltStart(d: State, b: string, role: B.Role, now: nat)
    requires Owned(d) && Listed(d.queue, b) && Get(d.queue, b).idle
    requires d.backend.status == B.StatusRunning && Spoilt(d.backend)
    ensures var r := Start(d, b, role, now);
            Listed(r.queue, b) && Get(r.queue, b).state == Finished && r.connected == []
  {
    StartExactly(d, b, role, now);
    NobodyListens(d, b);
    IdleOwns(d.queue, b);
    FinishReleases(RunIdle(d.queue, b), b);
  }

  lemma {:induction false} FourCalls(d: State, c1: B.Call, c2: B.Call, c3: B.Call, c4: B.Call)
    ensures HappenAll(d, [BackendCall(c1), BackendCall(c2)] + [BackendCall(c3), BackendCall(c4)])
         == Call(Call(Call(Call(d, c1), c2), c3), c4)
  {
    HappenAllAppend(d, [BackendCall(c1), BackendCall(c2)], [BackendCall(c3), BackendCall(c4)]);
    TwoCalls(d, c1, c2);
    TwoCalls(Call(Call(d, c1), c2), c3, c4);
  }

  lemma {:induction false} TwoCalls(d: State, c1: B.Call, c2: B.Call)
    ensures HappenAll(d, [BackendCall(c1), BackendCall(c2)]) == Call(Call(d, c1), c2)
  {
    assert [BackendCall(c1), BackendCall(c2)] == [BackendCall(c1)] + [BackendCall(c2)];
    HappenThen(d, [BackendCall(c1)], BackendCall(c2));
    HappenOne(d, BackendCall(c1));
  }

  /** From the empty daemon: the first transaction finishes, its module still says that it runs and
      reports an error, and the second is finished without ever having had the backend. */
  lemma {:induction false} SpoiltStartReachable(a: string, b: string, role: B.Role, code: B.ErrorCode, useTime: bool)
    returns (hs: seq<Happening>)
    requires a != b
    ensures var before := HappenAll(Empty(useTime, 0), hs);
            var r := Start(before, b, role, 0);
            && Owned(before) && Listed(before.queue, b) && Get(before.queue, b).idle
            && Listed(r.queue, b) && Get(r.queue, b).state == Finished && r.connected == []
  {
    var e := Empty(useTime, 0);
    var started := OneStarted(a, b, role, useTime, 0);
    var d := HappenAll(e, started);
    OwnerFinishes(d, a, role);
    SpoiledCalls(Call(Call(d, B.CallFinished), B.CallFinishTimer), code);
    SecondStarted(d.queue, a, b);
    var calls := [BackendCall(B.CallFinished), BackendCall(B.CallFinishTimer)]
               + [BackendCall(B.CallStatus(B.StatusRunning)), BackendCall(B.CallError(code))];
    FourCalls(d, B.CallFinished, B.CallFinishTimer, B.CallStatus(B.StatusRunning), B.CallError(code));
    hs := started + calls;
    HappenAllAppend(e, started, calls);
    SpoiltStart(HappenAll(d, calls), b, role, 0);
  }

  lemma {:induction false} SecondStarted(q: Queue, a: string, b: string)
    requires a != b && q == [Started(a).(idle := false), Waiting(b)]
    ensures var r := Finish(q, a); Listed(r, b) && Get(r, b).idle && Get(r, b).state == Running
  {
    assert q[0].tid == a && q[1].tid == b;
    FinishShape(q, a);
    GetAfterFinish(q, FinishSignalled(a), b);
  }
}
