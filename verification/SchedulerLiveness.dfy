/** Bounded waiting, draining, suspension and the per-user bound of the transaction list. */
module SchedulerLiveness {
  import opened Totals
  import opened Scheduler
  import opened SchedulerProofs
  import opened SchedulerProgress

  // ----- bounded waiting -----

  function PendingWeight(item: Item): nat { if Rank(item.state) <= Rank(Ready) then 1 else 0 }

  /** The transactions before `tid` in the array that have not been started. */
  function Ahead(q: Queue, tid: string): nat { Total(q[..Find(q, tid)], PendingWeight) }

  function AcceptedFinishes(q: Queue, events: seq<Event>): nat
    decreases |events|
  {
    if events == [] then 0
    else (if FinishAccepted(q, events[0]) then 1 else 0) + AcceptedFinishes(Step(q, events[0]), events[1..])
  }

  /** `tid` stays listed, in the foreground and unfinished in every state of the run. */
  predicate StaysForeground(q: Queue, events: seq<Event>, tid: string)
    decreases |events|
  {
    && Listed(q, tid) && !Get(q, tid).background && Get(q, tid).state != Finished
    && (events != [] ==> StaysForeground(Step(q, events[0]), events[1..], tid))
  }

  lemma {:induction false} AheadAfterUpdate(q: Queue, i: nat, x: Item, tid: string)
    requires i < |q| && x.tid == q[i].tid && Listed(q, tid)
    ensures Ahead(q[i := x], tid) + (if i < Find(q, tid) then PendingWeight(q[i]) else 0)
         == Ahead(q, tid) + (if i < Find(q, tid) then PendingWeight(x) else 0)
  {
    var p := Find(q, tid);
    FindAfterUpdate(q, i, x, tid);
    if i < p {
      assert q[i := x][..p] == q[..p][i := x];
      TotalUpdate(q[..p], i, x, PendingWeight);
    } else {
      assert q[i := x][..p] == q[..p];
    }
  }

  lemma {:induction false} TakeAfterRemove(q: Queue, i: nat, p: nat)
    requires i < |q| && p <= |q| && i != p
    ensures i < p ==> RemoveAt(q, i)[..p - 1] == q[..p][..i] + q[..p][i + 1..]
    ensures p < i ==> RemoveAt(q, i)[..p] == q[..p]
  {
  }

  lemma {:induction false} AheadAfterRemove(q: Queue, i: nat, tid: string)
    requires Distinct(q) && i < |q| && Listed(q, tid) && i != Find(q, tid)
    ensures Ahead(RemoveAt(q, i), tid) <= Ahead(q, tid)
  {
    var p := Find(q, tid);
    FindAfterRemove(q, i, tid);
    TakeAfterRemove(q, i, p);
    if i < p { TotalRemove(q[..p], i, PendingWeight); }
  }

  /** No ready foreground transaction is preferred to `tid`. */
  predicate InTurn(q: Queue, tid: string)
    requires Listed(q, tid)
  {
    Get(q, tid).background ==> ReadyOnlyBackground(q)
  }

  /** While `tid` is in its turn, an accepted finish starts it or something ahead of it. */
  lemma {:induction false} AheadAfterFinish(q: Queue, e: Event, tid: string)
    requires WellFormed(q) && FinishAccepted(q, e) && Listed(q, tid) && Listed(Step(q, e), tid)
    requires Get(q, tid).state == Ready && InTurn(q, tid)
    requires Get(Step(q, e), tid).state == Ready
    ensures Ahead(Step(q, e), tid) + 1 <= Ahead(q, tid)
  {
    var i, p := Find(q, e.tid), Find(q, tid);
    GetAfterFinish(q, e, tid);
    FinishShape(q, e.tid);
    var done := q[i := q[i].(commitTimer := false, state := Finished, removeTimer := true)];
    FindAfterUpdate(q, i, done[i], tid);
    AheadAfterUpdate(q, i, done[i], tid);
    StartNextShape(done);
    var n := NextItem(done);
    assert done[p].state == Ready;
    assert n < |done| && done[n].state == Ready && n != i;
    assert n <= p by {
      if done[p].background { assert q[n].background; }
    }
    GetAfterUpdate(done, n, done[n].(state := Running, idle := true), tid);
    AheadAfterUpdate(done, n, done[n].(state := Running, idle := true), tid);
  }

  lemma {:induction false} AheadAfterStep(q: Queue, e: Event, tid: string)
    requires WellFormed(q) && Listed(q, tid) && Listed(Step(q, e), tid)
    requires Get(q, tid).state == Ready && InTurn(q, tid)
    requires Get(Step(q, e), tid).state == Ready
    ensures Ahead(Step(q, e), tid) + (if FinishAccepted(q, e) then 1 else 0) <= Ahead(q, tid)
  {
    var i, r := Find(q, e.tid), Step(q, e);
    if FinishAccepted(q, e) {
      AheadAfterFinish(q, e, tid);
    } else if r == q {
    } else if e.CommitRequested? {
      CommitShape(q, e.tid);
      AheadAfterUpdate(q, i, r[i], tid);
    } else if e.Created? {
      FindAfterAppend(q, r[|q|], tid);
      assert r[..Find(q, tid)] == q[..Find(q, tid)];
    } else if |r| == |q| {
      assert r == q[i := r[i]];
      AheadAfterUpdate(q, i, r[i], tid);
    } else {
      GetAfterRemove(q, i, tid);
      AheadAfterRemove(q, i, tid);
    }
  }

  /** `tid` stays listed, unfinished and in its turn in every state of the run. */
  predicate StaysInTurn(q: Queue, events: seq<Event>, tid: string)
    decreases |events|
  {
    && Listed(q, tid) && Get(q, tid).state != Finished && InTurn(q, tid)
    && (events != [] ==> StaysInTurn(Step(q, events[0]), events[1..], tid))
  }

  lemma {:induction false} KeepsRunning(q: Queue, events: seq<Event>, tid: string)
    requires WellFormed(q) && StaysInTurn(q, events, tid) && Get(q, tid).state == Running
    ensures Listed(Run(q, events), tid) && Get(Run(q, events), tid).state == Running
    decreases |events|
  {
    if events != [] {
      StepWellFormed(q, events[0]);
      var q' := Step(q, events[0]);
      StepOnOne(q, events[0], tid);
      assert TimersOk(Get(q', tid));
      KeepsRunning(q', events[1..], tid);
    }
  }

  /** A ready transaction in its turn, in the foreground or in the background, runs after at most one more
      accepted finish than there are unstarted ones ahead of it. */
  lemma {:induction false} BoundedWaitingInTurn(q: Queue, events: seq<Event>, tid: string)
    requires WellFormed(q) && StaysInTurn(q, events, tid) && Get(q, tid).state == Ready
    requires AcceptedFinishes(q, events) >= Ahead(q, tid) + 1
    ensures Listed(Run(q, events), tid) && Get(Run(q, events), tid).state == Running
    decreases |events|
  {
    var q' := Step(q, events[0]);
    StepWellFormed(q, events[0]);
    StepOnOne(q, events[0], tid);
    assert TimersOk(Get(q', tid));
    if Get(q', tid).state == Ready {
      AheadAfterStep(q, events[0], tid);
      BoundedWaitingInTurn(q', events[1..], tid);
    } else {
      KeepsRunning(q', events[1..], tid);
    }
  }

  lemma {:induction false} ForegroundInTurn(q: Queue, events: seq<Event>, tid: string)
    requires StaysForeground(q, events, tid)
    ensures StaysInTurn(q, events, tid)
    decreases |events|
  {
    if events != [] { ForegroundInTurn(Step(q, events[0]), events[1..], tid); }
  }

  /** A ready foreground transaction that is neither finished, removed nor sent to the background
      runs after at most one more accepted finish than there are unstarted ones ahead of it. */
  lemma {:induction false} BoundedWaiting(q: Queue, events: seq<Event>, tid: string)
    requires WellFormed(q) && StaysForeground(q, events, tid) && Get(q, tid).state == Ready
    requires AcceptedFinishes(q, events) >= Ahead(q, tid) + 1
    ensures Listed(Run(q, events), tid) && Get(Run(q, events), tid).state == Running
  {
    ForegroundInTurn(q, events, tid);
    BoundedWaitingInTurn(q, events, tid);
  }

  // ----- draining -----

  /** What is left to happen to an item: every state change and the idle callback. */
  function StepsLeft(item: Item): nat { 2 * (6 - Rank(item.state)) + if item.idle then 1 else 0 }

  function Measure(q: Queue): nat { Total(q, StepsLeft) }

  lemma {:induction false} FinishDrains(q: Queue, e: Event)
    requires WellFormed(q) && FinishAccepted(q, e)
    ensures Measure(Step(q, e)) < Measure(q)
  {
    var i := Find(q, e.tid);
    FinishShape(q, e.tid);
    var done := q[i := q[i].(commitTimer := false, state := Finished, removeTimer := true)];
    TotalUpdate(q, i, done[i], StepsLeft);
    StartNextShape(done);
    var n := NextItem(done);
    if n < |done| { TotalUpdate(done, n, done[n].(state := Running, idle := true), StepsLeft); }
  }

  lemma {:induction false} UpdateDrains(q: Queue, i: nat, item: Item)
    requires i < |q| && StepsLeft(item) < StepsLeft(q[i])
    ensures Measure(q[i := item]) < Measure(q)
  {
    TotalUpdate(q, i, item, StepsLeft);
  }

  lemma {:induction false} StepDrains(q: Queue, e: Event)
    requires WellFormed(q) && !e.Created? && !e.BackgroundSet? && Step(q, e) != q
    ensures Measure(Step(q, e)) < Measure(q)
  {
    var i, r := Find(q, e.tid), Step(q, e);
    if e.FinishSignalled? {
      FinishDrains(q, e);
    } else if e.CommitRequested? {
      CommitShape(q, e.tid);
      UpdateDrains(q, i, r[i]);
    } else if |r| == |q| {
      assert e.AuthRequested? || e.IdleFired?;
      assert r == q[i := r[i]];
      UpdateDrains(q, i, r[i]);
    } else {
      assert r == RemoveAt(q, i);
      TotalRemove(q, i, StepsLeft);
    }
  }

  function EffectiveSteps(q: Queue, events: seq<Event>): nat
    decreases |events|
  {
    if events == [] then 0
    else (if events[0].BackgroundSet? || Step(q, events[0]) == q then 0 else 1)
         + EffectiveSteps(Step(q, events[0]), events[1..])
  }

  /** Without new transactions a run changes states or removes items at most Measure(q) times. */
  lemma {:induction false} RunDrains(q: Queue, events: seq<Event>)
    requires WellFormed(q) && forall e :: e in events ==> !e.Created?
    ensures EffectiveSteps(q, events) + Measure(Run(q, events)) <= Measure(q)
    decreases |events|
  {
    if events != [] {
      var e, q' := events[0], Step(q, events[0]);
      StepWellFormed(q, e);
      if e.BackgroundSet? && q' != q {
        TotalUpdate(q, Find(q, e.tid), q'[Find(q, e.tid)], StepsLeft);
      } else if q' != q {
        StepDrains(q, e);
      }
      RunDrains(q', events[1..]);
    }
  }

  /** What the main loop owes: a pending timer of its own, or the end of a running transaction. */
  predicate Owed(q: Queue, e: Event) {
    Listed(q, e.tid) && var item := Get(q, e.tid);
    match e
    case CommitTimerFired(_) => item.commitTimer
    case RemoveTimerFired(_) => item.removeTimer
    case FinishSignalled(_) => item.state == Running
    case _ => false
  }

  function NextOwed(q: Queue): (e: Event)
    requires WellFormed(q) && Conserved(q) && q != []
    ensures Owed(q, e) && Step(q, e) != q
  {
    var a := ActiveItem(q, 0);
    if a < |q| then
      FindAt(q, a);
      FinishShape(q, q[a].tid);
      var e := FinishSignalled(q[a].tid);
      FinishRunningCount(q, e);
      GetAfterFinish(q, e, e.tid);
      e
    else
      FindAt(q, 0);
      assert q[0].state != Running && q[0].state != Ready;
      if q[0].commitTimer then CommitTimerFired(q[0].tid) else RemoveTimerFired(q[0].tid)
  }

  predicate AllOwed(q: Queue, events: seq<Event>)
    decreases |events|
  {
    events == [] || (Owed(q, events[0]) && AllOwed(Step(q, events[0]), events[1..]))
  }

  /** A list in which work is conserved is never stuck: it empties by owed events alone, within
      Measure(q) of them. */
  lemma {:induction false} Drains(q: Queue) returns (events: seq<Event>)
    requires WellFormed(q) && Conserved(q)
    ensures AllOwed(q, events) && Run(q, events) == [] && |events| <= Measure(q)
    decreases Measure(q)
  {
    if q == [] {
      events := [];
    } else {
      var e := NextOwed(q);
      StepWellFormed(q, e);
      ConservedExactly(q, e);
      StepDrains(q, e);
      var rest := Drains(Step(q, e));
      events := [e] + rest;
      assert events[1..] == rest;
    }
  }

  // ----- suspending all pending work -----

  predicate StartedUpTo(q: Queue, n: nat) {
    n <= |q| && forall i :: 0 <= i < n ==> Rank(q[i].state) >= Rank(Running)
  }

  predicate SameTransactions(q: Queue, r: Queue) {
    |q| == |r| && forall i :: 0 <= i < |q| ==>
      q[i].tid == r[i].tid && q[i].background == r[i].background && Rank(q[i].state) <= Rank(r[i].state)
  }

  lemma {:induction false} CancelOne(q: Queue, i: nat)
    requires WellFormed(q) && i < |q| && Rank(q[i].state) < Rank(Running)
    ensures CancelPendingAt(q, i) == Finish(q, q[i].tid) == Run(q, CancelEvents(q, q[i].tid))
  {
    FindAt(q, i);
    var tid := q[i].tid;
    var f := Finish(q, tid);
    GetAfterFinish(q, FinishSignalled(tid), tid);
    assert Remove(f, tid) == f;
    assert Run(f, [Released(tid)]) == Run(Step(f, Released(tid)), []);
    assert [FinishSignalled(tid), Released(tid)][1..] == [Released(tid)];
    assert CancelEvents(q, tid) == [FinishSignalled(tid), Released(tid)];
  }

  lemma {:induction false} CancelPendingAtShape(q: Queue, i: nat)
    requires WellFormed(q) && StartedUpTo(q, i) && i < |q|
    ensures var r := CancelPendingAt(q, i);
            && WellFormed(r) && StartedUpTo(r, i + 1) && SameTransactions(q, r)
            && r == Run(q, if Rank(q[i].state) < Rank(Running) then CancelEvents(q, q[i].tid) else [])
  {
    if Rank(q[i].state) < Rank(Running) {
      CancelOne(q, i);
      FinishWellFormed(q, q[i].tid);
      FinishPending(q, i);
    }
  }

  lemma {:induction false} FinishPending(q: Queue, i: nat)
    requires WellFormed(q) && StartedUpTo(q, i) && i < |q| && Rank(q[i].state) < Rank(Running)
    ensures var r := Finish(q, q[i].tid); StartedUpTo(r, i + 1) && SameTransactions(q, r)
  {
    FindAt(q, i);
    FinishShape(q, q[i].tid);
    var done := q[i := q[i].(commitTimer := false, state := Finished, removeTimer := true)];
    StartNextShape(done);
    var n := NextItem(done);
    if n < |done| { assert done[n].state == Ready; }
  }

  /** Cancelling all pending work leaves nothing below running and never resizes the array, even
      though each cancel may start a later transaction in the middle of the loop. It is the run
      of the events returned, so every theorem about runs covers it. */
  lemma {:induction false} CancelPendingCompletes(q: Queue, from: nat) returns (events: seq<Event>)
    requires WellFormed(q) && StartedUpTo(q, from)
    ensures var r := CancelPending(q, from);
            && StartedUpTo(r, |r|) && SameTransactions(q, r) && WellFormed(r)
            && r == Run(q, events)
            && forall e :: e in events ==> e.FinishSignalled? || e.Released?
    decreases |q| - from
  {
    if from == |q| {
      events := [];
    } else {
      CancelPendingAtShape(q, from);
      var now := if Rank(q[from].state) < Rank(Running) then CancelEvents(q, q[from].tid) else [];
      var rest := CancelPendingCompletes(CancelPendingAt(q, from), from + 1);
      events := now + rest;
      RunAppend(q, now, rest);
    }
  }

  // ----- the per-user bound -----

  lemma {:induction false} CountUidTotal(q: Queue, uid: nat)
    ensures CountUid(q, uid) == Total(q, (item: Item) => if item.uid == uid then 1 else 0)
  {
    if q != [] { CountUidTotal(q[1..], uid); }
  }

  lemma {:induction false} CountUidAfterUpdate(q: Queue, i: nat, x: Item, uid: nat)
    requires i < |q| && x.uid == q[i].uid
    ensures CountUid(q[i := x], uid) == CountUid(q, uid)
  {
    CountUidTotal(q, uid);
    CountUidTotal(q[i := x], uid);
    TotalUpdate(q, i, x, (item: Item) => if item.uid == uid then 1 else 0);
  }

  lemma {:induction false} CountUidAfterFinish(q: Queue, e: Event, uid: nat)
    requires WellFormed(q) && FinishAccepted(q, e)
    ensures CountUid(Step(q, e), uid) == CountUid(q, uid)
  {
    var i := Find(q, e.tid);
    FinishShape(q, e.tid);
    var done := q[i := q[i].(commitTimer := false, state := Finished, removeTimer := true)];
    CountUidAfterUpdate(q, i, done[i], uid);
    StartNextShape(done);
    var n := NextItem(done);
    if n < |done| { CountUidAfterUpdate(done, n, done[n].(state := Running, idle := true), uid); }
  }

  lemma {:induction false} CountUidAfterRemove(q: Queue, i: nat, uid: nat)
    requires i < |q|
    ensures CountUid(RemoveAt(q, i), uid) <= CountUid(q, uid)
  {
    CountUidTotal(q, uid);
    CountUidTotal(RemoveAt(q, i), uid);
    TotalRemove(q, i, (item: Item) => if item.uid == uid then 1 else 0);
  }

  lemma {:induction false} CountUidAfterAppend(q: Queue, x: Item, uid: nat)
    ensures CountUid(q + [x], uid) == CountUid(q, uid) + if x.uid == uid then 1 else 0
  {
    CountUidTotal(q, uid);
    CountUidTotal(q + [x], uid);
    TotalAppend(q, [x], (item: Item) => if item.uid == uid then 1 else 0);
  }

  lemma {:induction false} CountUidAfterStep(q: Queue, e: Event, uid: nat)
    requires WellFormed(q)
    ensures CountUid(Step(q, e), uid) <= CountUid(q, uid)
         || (e.Created? && CountUid(q, uid) <= e.limit && CountUid(Step(q, e), uid) == CountUid(q, uid) + 1)
  {
    var i, r := Find(q, e.tid), Step(q, e);
    if r == q {
    } else if e.FinishSignalled? {
      CountUidAfterFinish(q, e, uid);
    } else if e.CommitRequested? {
      CommitShape(q, e.tid);
      CountUidAfterUpdate(q, i, r[i], uid);
    } else if e.Created? {
      assert r == q + [r[|q|]];
      CountUidAfterAppend(q, r[|q|], uid);
    } else if |r| == |q| {
      assert r == q[i := r[i]];
      CountUidAfterUpdate(q, i, r[i], uid);
    } else {
      CountUidAfterRemove(q, i, uid);
    }
  }

  /** No user ever has more than one transaction above the configured limit. */
  lemma {:induction false} UserBound(q: Queue, events: seq<Event>, uid: nat, limit: nat)
    requires WellFormed(q) && CountUid(q, uid) <= limit + 1
    requires forall e :: e in events && e.Created? ==> e.limit <= limit
    ensures CountUid(Run(q, events), uid) <= limit + 1
    decreases |events|
  {
    if events != [] {
      StepWellFormed(q, events[0]);
      CountUidAfterStep(q, events[0], uid);
      UserBound(Step(q, events[0]), events[1..], uid, limit);
    }
  }

  /** A user who is already at the limit is still given one more transaction, and only then refused. */
  lemma {:induction false} UserLimitExceededByOne(q: Queue, tid: string, uid: nat, limit: nat)
    requires !Listed(q, tid)
    ensures |Create(q, tid, uid, limit)| == |q| + 1 <==> CountUid(q, uid) <= limit
    ensures CountUid(q, uid) == limit ==> CountUid(Create(q, tid, uid, limit), uid) == limit + 1
  {
    CountUidAfterAppend(q, Item(tid, uid, New, false, true, false, false), uid);
  }

  // ----- every run of the daemon -----

  /** From the empty list the daemon starts with: the running bound, work conservation until a
      scheduled transaction is dropped, and a wedge check that stays quiet until then. */
  lemma {:induction false} EveryRun(events: seq<Event>)
    ensures WellFormed(Run([], events))
    ensures RunningCount(Run([], events)) <= 1 + StrayFinishes([], events)
    ensures NeverDrops([], events) ==> Conserved(Run([], events))
    ensures NeverDrops([], events) && StrayFinishes([], events) == 0 ==> IsConsistent(Run([], events))
  {
    RunWellFormed([], events);
    RunningBound([], events, 1);
    if NeverDrops([], events) {
      RunConserved([], events);
      ConsistentExactly(Run([], events));
    }
  }
}
