/**
 The daemon as a whole: the list decides which transaction may use the one shared backend, starting a
 transaction claims the backend, and the backend's finish signal ends it and starts the next. No
 plugins are loaded.
 */
module Daemon {
  import opened Scheduler
  import opened SchedulerProofs
  import opened SchedulerProgress
  import BackendModel
  import opened BackendProofs

  /** `connected` lists the transactions that listen to the backend's signals. */
  datatype State = State(queue: Queue, backend: BackendModel.Backend, connected: seq<string>)

  datatype Happening =
    | ListStep(e: Event)
    | RunTransaction(tid: string, role: BackendModel.Role, now: nat)
    | BackendCall(c: BackendModel.Call)

  function DeliverAll(q: Queue, tids: seq<string>): Queue
    decreases |tids|
  {
    if tids == [] then q else DeliverAll(Finish(q, tids[0]), tids[1..])
  }

  /** What the backend has emitted in the present epoch once a call is done; a reset ends the epoch. */
  function Emitted(b: BackendModel.Backend, c: BackendModel.Call): seq<BackendModel.Signal> {
    if !c.CallReset? then BackendModel.Do(b, c).trace
    else if b.status == BackendModel.StatusRunning then b.trace
    else BackendModel.FlushFinish(b).trace
  }

  predicate Signals(b: BackendModel.Backend, c: BackendModel.Call) { FinishesIn(Emitted(b, c)) > FinishesIn(b.trace) }

  /** A finish signal reaches every transaction that listens, and none listens any longer. */
  function Deliver(d: State, b: BackendModel.Backend, signalled: bool): State {
    if signalled then State(DeliverAll(d.queue, d.connected), b, []) else d.(backend := b)
  }

  function Call(d: State, c: BackendModel.Call): State {
    Deliver(d, BackendModel.Do(d.backend, c), Signals(d.backend, c))
  }

  function Reset(d: State, now: nat): State { Call(d, BackendModel.CallReset(now)) }

  /** The backend still carries an error or a request to skip: the transaction ends without work. */
  predicate Spoilt(b: BackendModel.Backend) { b.life.setError || b.life.exit == BackendModel.SkipTransaction }

  function Claim(d: State, role: BackendModel.Role, now: nat): State {
    var b1 := BackendModel.Do(d.backend, BackendModel.CallSetRole(role, now));
    d.(backend := BackendModel.Do(b1, BackendModel.CallPercentage(BackendModel.PERCENTAGE_INVALID, now)))
  }

  function Prepare(d: State, now: nat): State {
    var d1 := Reset(d, now);
    d1.(backend := BackendModel.SetStatus(d1.backend, BackendModel.StatusSetup))
  }

  /** The idle callback of a started transaction: the backend is reset twice, the second time after it
      was checked, and then given the role. */
  function Start(d: State, tid: string, role: BackendModel.Role, now: nat): State {
    if !Listed(d.queue, tid) || !Get(d.queue, tid).idle then d
    else
      var d1 := Prepare(d.(queue := RunIdle(d.queue, tid)), now);
      if Spoilt(d1.backend) then d1.(queue := Finish(d1.queue, tid))
      else
        var d2 := Claim(Reset(d1, now), role, now);
        d2.(connected := d2.connected + [tid])
  }

  function Happen(d: State, h: Happening): State {
    match h
    case ListStep(e) => d.(queue := Step(d.queue, e))
    case RunTransaction(tid, role, now) => Start(d, tid, role, now)
    case BackendCall(c) => Call(d, c)
  }

  function HappenAll(d: State, hs: seq<Happening>): State
    decreases |hs|
  {
    if hs == [] then d else HappenAll(Happen(d, hs[0]), hs[1..])
  }

  // ----- who owns the backend -----

  predicate OwnsBackend(q: Queue, tid: string) {
    Listed(q, tid) && Get(q, tid).state == Running && !Get(q, tid).idle
  }

  ghost predicate OnlyStartedAreIdle(q: Queue) {
    forall tid :: Listed(q, tid) && Get(q, tid).idle ==> Get(q, tid).state == Running
  }

  /** Exactly the running transaction whose idle callback has come listens to the backend, and its
      finish is still to be delivered. */
  ghost predicate Owned(d: State) {
    && WellFormed(d.queue) && RunningCount(d.queue) <= 1 && Inv(d.backend) && OnlyStartedAreIdle(d.queue)
    && (forall tid :: OwnsBackend(d.queue, tid) ==> d.connected == [tid])
    && |d.connected| <= 1
    && (d.connected != [] ==> OwnsBackend(d.queue, d.connected[0]) && FinishesIn(d.backend.trace) == 0)
  }

  /** The daemon as it starts. */
  function Empty(useTime: bool, now: nat): State { State([], BackendModel.NewEpoch(false, useTime, now, []), []) }

  lemma {:induction false} EmptyIsOwned(useTime: bool, now: nat)
    ensures Owned(Empty(useTime, now))
  {
    NewEpochInv(false, useTime, now);
  }

  /** A transaction is finished from outside only before it is started, and not while one runs and
      another waits; idle callbacks come as the start of a transaction. */
  predicate Orderly(d: State, h: Happening) {
    h.ListStep? ==>
      && (h.e.IdleFired? ==> Step(d.queue, h.e) == d.queue)
      && (FinishAccepted(d.queue, h.e) ==> Rank(Get(d.queue, h.e.tid).state) <= Rank(Ready))
      && !(StrayFinish(d.queue, h.e) && RunningCount(d.queue) == 1 && SomeOtherReady(d.queue, Find(d.queue, h.e.tid)))
  }

  // ----- steps of the list -----

  lemma {:induction false} OwnerStays(q: Queue, e: Event, tid: string)
    requires WellFormed(q) && OwnsBackend(q, tid) && !e.IdleFired?
    requires FinishAccepted(q, e) ==> Rank(Get(q, e.tid).state) <= Rank(Ready)
    ensures OwnsBackend(Step(q, e), tid)
  {
    var i, r := Find(q, e.tid), Step(q, e);
    if r == q {
    } else if e.FinishSignalled? {
      GetAfterFinish(q, e, tid);
    } else if e.CommitRequested? {
      CommitShape(q, e.tid);
      GetAfterUpdate(q, i, r[i], tid);
    } else if e.Created? {
      FindAfterAppend(q, r[|q|], tid);
    } else if |r| == |q| {
      assert r == q[i := r[i]];
      GetAfterUpdate(q, i, r[i], tid);
    } else {
      assert r == RemoveAt(q, i) && TimersOk(q[i]);
      FindAfterRemove(q, i, tid);
      GetAfterRemove(q, i, tid);
    }
  }

  /** No step of the list makes an owner, and started transactions are the only ones with an idle
      callback. */
  lemma {:induction false} OwnerWas(q: Queue, e: Event, tid: string)
    requires WellFormed(q) && !e.IdleFired? && Listed(Step(q, e), tid)
    requires OnlyStartedAreIdle(q) && (FinishAccepted(q, e) ==> Rank(Get(q, e.tid).state) <= Rank(Ready))
    ensures OwnsBackend(Step(q, e), tid) ==> OwnsBackend(q, tid)
    ensures Get(Step(q, e), tid).idle ==> Get(Step(q, e), tid).state == Running
  {
    var i, r := Find(q, e.tid), Step(q, e);
    if r == q {
    } else if e.FinishSignalled? {
      ListedBefore(q, e, tid);
      GetAfterFinish(q, e, tid);
    } else if e.CommitRequested? {
      ListedBefore(q, e, tid);
      CommitShape(q, e.tid);
      GetAfterUpdate(q, i, r[i], tid);
    } else if e.Created? {
      if Listed(q, tid) { FindAfterAppend(q, r[|q|], tid); }
    } else if |r| == |q| {
      ListedBefore(q, e, tid);
      assert r == q[i := r[i]];
      GetAfterUpdate(q, i, r[i], tid);
    } else {
      assert r == RemoveAt(q, i);
      FindAfterRemove(q, i, tid);
      GetAfterRemove(q, i, tid);
    }
  }

  lemma {:induction false} ListedBefore(q: Queue, e: Event, tid: string)
    requires WellFormed(q) && !e.Created? && |Step(q, e)| == |q| && Listed(Step(q, e), tid)
    ensures Listed(q, tid)
  {
    var r := Step(q, e);
    if e.FinishSignalled? && FinishAccepted(q, e) {
      FinishShape(q, e.tid);
      var i := Find(q, e.tid);
      StartNextShape(q[i := q[i].(commitTimer := false, state := Finished, removeTimer := true)]);
    } else if e.CommitRequested? && CommitAccepted(q, e.tid) {
      CommitShape(q, e.tid);
    }
    assert forall j :: 0 <= j < |q| ==> r[j].tid == q[j].tid;
    assert q[Find(r, tid)].tid == tid;
  }

  lemma {:induction false} ListStepKeepsOwner(d: State, e: Event)
    requires Owned(d) && Orderly(d, ListStep(e))
    ensures Owned(Happen(d, ListStep(e)))
  {
    var q, r := d.queue, Step(d.queue, e);
    StepWellFormed(q, e);
    ExclusionLostExactly(q, e);
    if !e.IdleFired? {
      forall tid | Listed(r, tid)
        ensures OwnsBackend(r, tid) ==> OwnsBackend(q, tid)
        ensures Get(r, tid).idle ==> Get(r, tid).state == Running
      {
        OwnerWas(q, e, tid);
      }
      if d.connected != [] { OwnerStays(q, e, d.connected[0]); }
    }
  }

  lemma {:induction false} IdleAloneDisowns(d: State, tid: string)
    requires Owned(d) && RunIdle(d.queue, tid) != d.queue
    ensures !Owned(Happen(d, ListStep(IdleFired(tid))))
  {
    var q, i, r := d.queue, Find(d.queue, tid), RunIdle(d.queue, tid);
    NobodyListens(d, tid);
    assert r == q[i := q[i].(idle := false)];
    GetAfterUpdate(q, i, r[i], tid);
    assert OwnsBackend(r, tid);
  }

  lemma {:induction false} FinishOfRunningDisowns(d: State, e: Event)
    requires Owned(d) && FinishAccepted(d.queue, e) && Rank(Get(d.queue, e.tid).state) > Rank(Ready)
    ensures !Owned(Happen(d, ListStep(e)))
  {
    var q, tid := d.queue, e.tid;
    assert TimersOk(Get(q, tid));
    GetAfterFinish(q, e, tid);
    assert Get(q, tid).state == Running && Get(Step(q, e), tid).state == Finished;
    if !Get(q, tid).idle { assert OwnsBackend(q, tid); }
  }

  /** A step of the list keeps one listener exactly under that condition. */
  lemma {:induction false} ListStepOwnedExactly(d: State, e: Event)
    requires Owned(d)
    ensures Owned(Happen(d, ListStep(e))) <==> Orderly(d, ListStep(e))
  {
    if Orderly(d, ListStep(e)) {
      ListStepKeepsOwner(d, e);
    } else if e.IdleFired? {
      IdleAloneDisowns(d, e.tid);
    } else if Rank(Get(d.queue, e.tid).state) > Rank(Ready) {
      FinishOfRunningDisowns(d, e);
    } else {
      ExclusionLostExactly(d.queue, e);
    }
  }

  // ----- the end of the running transaction -----

  /** The owner finishes: nobody owns the backend, and a waiting transaction is started. */
  lemma {:induction false} FinishReleases(q: Queue, tid: string)
    requires WellFormed(q) && RunningCount(q) <= 1 && OnlyStartedAreIdle(q)
    requires OwnsBackend(q, tid) && forall other :: OwnsBackend(q, other) ==> other == tid
    ensures var r := Finish(q, tid);
            && WellFormed(r) && RunningCount(r) <= 1 && OnlyStartedAreIdle(r)
            && (forall other :: !OwnsBackend(r, other))
            && Listed(r, tid) && Get(r, tid).state == Finished
            && (RunningCount(r) == 1 <==> SomeOtherReady(q, Find(q, tid)))
  {
    var e, r := FinishSignalled(tid), Finish(q, tid);
    assert FinishAccepted(q, e) && Step(q, e) == r;
    StepWellFormed(q, e);
    FinishRunningCount(q, e);
    RunningAtLeast(q, tid);
    GetAfterFinish(q, e, tid);
    forall other | Listed(r, other)
      ensures !OwnsBackend(r, other) && (Get(r, other).idle ==> Get(r, other).state == Running)
    {
      ListedBefore(q, e, other);
      GetAfterFinish(q, e, other);
      assert OwnsBackend(q, other) ==> other == tid;
    }
  }

  lemma {:induction false} RunningAtLeast(q: Queue, tid: string)
    requires Listed(q, tid) && Get(q, tid).state == Running
    ensures RunningCount(q) >= 1
  {
    RunningCountZero(q);
  }

  lemma {:induction false} DeliverToOwner(d: State, tid: string)
    requires d.connected == [tid]
    ensures DeliverAll(d.queue, d.connected) == Finish(d.queue, tid)
  {
    assert [tid][1..] == [];
    assert DeliverAll(Finish(d.queue, tid), []) == Finish(d.queue, tid);
  }

  lemma {:induction false} DeliverKeepsOwner(d: State, b: BackendModel.Backend, signalled: bool)
    requires Owned(d) && Inv(b) && (signalled || d.connected == [] || FinishesIn(b.trace) == 0)
    ensures Owned(Deliver(d, b, signalled))
  {
    if d.connected != [] {
      DeliverToOwner(d, d.connected[0]);
      FinishReleases(d.queue, d.connected[0]);
    }
  }

  /** No call of the backend, not even a reset, gives it a second listener. */
  lemma {:induction false} CallKeepsOwner(d: State, c: BackendModel.Call)
    requires Owned(d)
    ensures Owned(Call(d, c))
  {
    DoKeepsInv(d.backend, c);
    DeliverKeepsOwner(d, BackendModel.Do(d.backend, c), Signals(d.backend, c));
  }

  // ----- the start of a transaction -----

  lemma {:induction false} TwoRunning(q: Queue, i: nat, j: nat)
    requires i < |q| && j < |q| && i != j && q[i].state == Running && q[j].state == Running
    ensures RunningCount(q) >= 2
  {
    var r := q[i := q[i].(state := Finished)];
    Totals.TotalUpdate(q, i, r[i], RunningWeight);
    RunningCountZero(r);
    assert r[j].state == Running;
  }

  /** While a started transaction waits for its idle callback, nobody listens to the backend. */
  lemma {:induction false} NobodyListens(d: State, tid: string)
    requires Owned(d) && Listed(d.queue, tid) && Get(d.queue, tid).idle
    ensures d.connected == []
  {
    if d.connected != [] { TwoRunning(d.queue, Find(d.queue, tid), Find(d.queue, d.connected[0])); }
  }

  lemma {:induction false} IdleOwns(q: Queue, tid: string)
    requires WellFormed(q) && RunningCount(q) <= 1 && OnlyStartedAreIdle(q)
    requires Listed(q, tid) && Get(q, tid).idle && forall other :: !OwnsBackend(q, other)
    ensures var r := RunIdle(q, tid);
            && WellFormed(r) && RunningCount(r) <= 1 && OnlyStartedAreIdle(r)
            && OwnsBackend(r, tid) && forall other :: OwnsBackend(r, other) ==> other == tid
  {
    var i, r := Find(q, tid), RunIdle(q, tid);
    StepWellFormed(q, IdleFired(tid));
    assert Step(q, IdleFired(tid)) == r == q[i := q[i].(idle := false)];
    Totals.TotalUpdate(q, i, r[i], RunningWeight);
    GetAfterUpdate(q, i, r[i], tid);
    forall other | Listed(r, other)
      ensures OwnsBackend(r, other) ==> other == tid
      ensures Get(r, other).idle ==> Get(r, other).state == Running
    {
      ListedBefore(q, IdleFired(tid), other);
      GetAfterUpdate(q, i, r[i], other);
      assert Find(q, other) == i ==> other == tid;
      assert !OwnsBackend(q, other);
    }
  }

  /** The backend after the first reset and the setup status. */
  lemma {:induction false} Prepared(b: BackendModel.Backend, now: nat)
    requires Inv(b)
    ensures var r := BackendModel.SetStatus(BackendModel.ResetCall(b, now), BackendModel.StatusSetup);
            && Inv(r)
            && (Spoilt(r) <==> b.status == BackendModel.StatusRunning && Spoilt(b))
            && (!Spoilt(r) ==> r.status == BackendModel.StatusSetup)
  {
    var b1 := BackendModel.ResetCall(b, now);
    DoKeepsInv(b, BackendModel.CallReset(now));
    assert BackendModel.Do(b, BackendModel.CallReset(now)) == b1;
    DoKeepsInv(b1, BackendModel.CallStatus(BackendModel.StatusSetup));
    StatusQuiet(b1, BackendModel.StatusSetup);
  }

  /** What a transaction finds when it gets the backend. */
  predicate NewlyClaimed(b: BackendModel.Backend, role: BackendModel.Role) {
    && b.life == BackendModel.Life(false, false, false, false, BackendModel.ExitUnknown)
    && b.stream.results == [] && b.stream.lastPackage.None? && FinishesIn(b.trace) == 0
    && b.role == role && b.transactionRole == role
    && b.status == BackendModel.StatusWait && b.progress.percentage == 101
  }

  lemma {:induction false} Claimed(b: BackendModel.Backend, role: BackendModel.Role, now: nat)
    requires Inv(b) && b.status == BackendModel.StatusSetup
    ensures var r := BackendModel.Do(
                       BackendModel.Do(BackendModel.ResetCall(b, now), BackendModel.CallSetRole(role, now)),
                       BackendModel.CallPercentage(BackendModel.PERCENTAGE_INVALID, now));
            Inv(r) && NewlyClaimed(r, role)
  {
    var c1 := BackendModel.CallSetRole(role, now);
    var c2 := BackendModel.CallPercentage(BackendModel.PERCENTAGE_INVALID, now);
    var b1 := BackendModel.ResetCall(b, now);
    assert BackendModel.Do(b, BackendModel.CallReset(now)) == b1;
    DoKeepsInv(b, BackendModel.CallReset(now));
    QuietKeepsClaim(b1, c1);
    RoleTaken(b1, role, now);
    QuietKeepsClaim(BackendModel.Do(b1, c1), c2);
  }

  lemma {:induction false} QuietKeepsClaim(b: BackendModel.Backend, c: BackendModel.Call)
    requires Inv(b) && IsQuietCall(c)
    ensures var r := BackendModel.Do(b, c);
            Inv(r) && r.life == b.life && r.stream == b.stream && FinishesIn(r.trace) == FinishesIn(b.trace)
    ensures var r := BackendModel.Do(b, c);
            c.CallPercentage? ==> r.role == b.role && r.transactionRole == b.transactionRole && r.status == b.status
  {
    DoKeepsInv(b, c);
    QuietCall(b, c);
  }

  lemma {:induction false} RoleTaken(b: BackendModel.Backend, role: BackendModel.Role, now: nat)
    requires b.role == BackendModel.RoleUnknown
    ensures var r := BackendModel.SetRole(b, role, now);
            && r.role == role && r.transactionRole == role && r.status == BackendModel.StatusWait
            && r.progress.percentage == b.progress.percentage
  {
  }

  /** A started transaction gets a backend without a trace of the one before, exactly unless the backend
      was left in its running status with an error or a skip request; then the transaction ends at once,
      without having run, with what was left behind. */
  lemma {:induction false} StartExactly(d: State, tid: string, role: BackendModel.Role, now: nat)
    requires Owned(d) && Listed(d.queue, tid) && Get(d.queue, tid).idle
    ensures var r, s := Start(d, tid, role, now), d.backend;
            if && s.status == BackendModel.StatusRunning
               && (s.life.setError || s.life.exit == BackendModel.SkipTransaction)
            then r.queue == Finish(RunIdle(d.queue, tid), tid) && r.connected == [] && Inv(r.backend)
            else r.queue == RunIdle(d.queue, tid) && r.connected == [tid]
                 && Inv(r.backend) && NewlyClaimed(r.backend, role)
  {
    NobodyListens(d, tid);
    var b1 := BackendModel.SetStatus(BackendModel.ResetCall(d.backend, now), BackendModel.StatusSetup);
    Prepared(d.backend, now);
    var d0 := d.(queue := RunIdle(d.queue, tid));
    QuietReset(d0, now);
    assert Prepare(d0, now) == State(d0.queue, b1, []);
    if !Spoilt(b1) {
      QuietReset(Prepare(d0, now), now);
      Claimed(b1, role, now);
    }
  }

  lemma {:induction false} QuietReset(d: State, now: nat)
    requires d.connected == []
    ensures Reset(d, now) == d.(backend := BackendModel.ResetCall(d.backend, now))
  {
    assert DeliverAll(d.queue, []) == d.queue;
  }

  lemma {:induction false} StartKeepsOwner(d: State, tid: string, role: BackendModel.Role, now: nat)
    requires Owned(d)
    ensures Owned(Start(d, tid, role, now))
  {
    if Listed(d.queue, tid) && Get(d.queue, tid).idle {
      NobodyListens(d, tid);
      StartExactly(d, tid, role, now);
      IdleOwns(d.queue, tid);
      FinishReleases(RunIdle(d.queue, tid), tid);
    }
  }

  // ----- every run -----

  predicate AllOrderly(d: State, hs: seq<Happening>)
    decreases |hs|
  {
    hs == [] || (Orderly(d, hs[0]) && AllOrderly(Happen(d, hs[0]), hs[1..]))
  }

  lemma {:induction false} OwnedExactly(d: State, h: Happening)
    requires Owned(d)
    ensures Owned(Happen(d, h)) <==> Orderly(d, h)
  {
    match h
    case ListStep(e) => ListStepOwnedExactly(d, e);
    case RunTransaction(tid, role, now) => StartKeepsOwner(d, tid, role, now);
    case BackendCall(c) => CallKeepsOwner(d, c);
  }

  ghost predicate AlwaysOwned(d: State, hs: seq<Happening>)
    decreases |hs|
  {
    Owned(d) && (hs != [] ==> AlwaysOwned(Happen(d, hs[0]), hs[1..]))
  }

  /** Over every run the shared backend has one listener at most, the transaction that runs, exactly as
      long as every step of the list is orderly. */
  lemma {:induction false} BackendHasOneOwner(d: State, hs: seq<Happening>)
    requires Owned(d)
    ensures AlwaysOwned(d, hs) <==> AllOrderly(d, hs)
    decreases |hs|
  {
    if hs != [] {
      OwnedExactly(d, hs[0]);
      if Orderly(d, hs[0]) { BackendHasOneOwner(Happen(d, hs[0]), hs[1..]); }
    }
  }

  /** Whatever the backend is told, its finish signal finishes the transaction that runs and no other,
      and starts a waiting one if there is any; without the signal the list does not change. */
  lemma {:induction false} SignalEndsOwner(d: State, tid: string, c: BackendModel.Call)
    requires Owned(d) && d.connected == [tid]
    ensures var r := Call(d, c);
            if !Signals(d.backend, c) then r.queue == d.queue && r.connected == [tid]
            else
              && r.queue == Finish(d.queue, tid) && r.connected == []
              && Listed(r.queue, tid) && Get(r.queue, tid).state == Finished
              && (RunningCount(r.queue) == 1 <==> SomeOtherReady(d.queue, Find(d.queue, tid)))
  {
    DeliverToOwner(d, tid);
    FinishReleases(d.queue, tid);
  }

  lemma {:induction false} ErrorTimerEffect(b: BackendModel.Backend)
    requires Inv(b) && b.life.setError && FinishesIn(b.trace) == 0
    ensures var r := BackendModel.ErrorTimeout(b); r.life.finishTimer && FinishesIn(r.trace) == 0
  {
    if !b.life.finished {
      EmitQuiet(b, BackendModel.MessageSignal(BackendModel.BackendError));
      FinishedEffect(BackendModel.Emit(b, BackendModel.MessageSignal(BackendModel.BackendError)));
    }
  }

  lemma {:induction false} ErrorTimerCall(d: State)
    requires Owned(d) && d.connected != [] && d.backend.life.setError
    ensures var r := Call(d, BackendModel.CallErrorTimer);
            r == d.(backend := r.backend) && r.backend.life.finishTimer
  {
    ErrorTimerEffect(d.backend);
  }

  lemma {:induction false} FinishTimerCall(d: State, tid: string)
    requires Owned(d) && d.connected == [tid] && d.backend.life.finishTimer
    ensures var r := Call(d, BackendModel.CallFinishTimer);
            && Listed(r.queue, tid) && Get(r.queue, tid).state == Finished && r.connected == []
            && (RunningCount(r.queue) == 1 <==> SomeOtherReady(d.queue, Find(d.queue, tid)))
  {
    FinishedDelayEffect(d.backend);
    SignalEndsOwner(d, tid, BackendModel.CallFinishTimer);
  }

  /** An error never blocks the list: when the backend does nothing more after it, its two timers end the
      running transaction and start the next. */
  lemma {:induction false} ErrorMovesOn(d: State, tid: string)
    requires Owned(d) && d.connected == [tid] && d.backend.life.setError
    ensures var r := Call(Call(d, BackendModel.CallErrorTimer), BackendModel.CallFinishTimer);
            && Get(d.queue, tid).state == Running
            && Listed(r.queue, tid) && Get(r.queue, tid).state == Finished && r.connected == []
            && (RunningCount(r.queue) == 1 <==> SomeOtherReady(d.queue, Find(d.queue, tid)))
  {
    ErrorTimerCall(d);
    CallKeepsOwner(d, BackendModel.CallErrorTimer);
    FinishTimerCall(Call(d, BackendModel.CallErrorTimer), tid);
  }

}
