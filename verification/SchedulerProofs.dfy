/** What the transaction list guarantees over every run. */
module SchedulerProofs {
  import opened Totals
  import opened Scheduler

  // ----- well-formed queues -----

  predicate Distinct(q: Queue) {
    forall i, j :: 0 <= i < j < |q| ==> q[i].tid != q[j].tid
  }

  /** The commit timer runs exactly until the commit, the remove timer exactly after the finish,
      and an idle callback is pending only once the transaction was started. */
  predicate TimersOk(item: Item) {
    && item.state != Committed && item.state != Unknown
    && (item.commitTimer <==> item.state == New || item.state == WaitingForAuth)
    && (item.removeTimer <==> item.state == Finished)
    && (item.idle ==> item.state == Running || item.state == Finished)
  }

  predicate WellFormed(q: Queue) {
    Distinct(q) && forall i :: 0 <= i < |q| ==> TimersOk(q[i])
  }

  lemma {:induction false} FindAt(q: Queue, i: nat)
    requires Distinct(q) && i < |q|
    ensures Find(q, q[i].tid) == i
  {
  }

  lemma {:induction false} FindAfterUpdate(q: Queue, i: nat, x: Item, tid: string)
    requires i < |q| && x.tid == q[i].tid
    ensures Find(q[i := x], tid) == Find(q, tid)
  {
    var r := q[i := x];
    assert forall j :: 0 <= j < |q| ==> r[j].tid == q[j].tid;
  }

  lemma {:induction false} StartNextShape(q: Queue)
    ensures var n := NextItem(q);
            StartNext(q) == if n < |q| then q[n := q[n].(state := Running, idle := true)] else q
  {
  }

  lemma {:induction false} FinishShape(q: Queue, tid: string)
    requires FinishAccepted(q, FinishSignalled(tid))
    ensures var i := Find(q, tid);
            Finish(q, tid) == StartNext(q[i := q[i].(commitTimer := false, state := Finished, removeTimer := true)])
  {
    var i := Find(q, tid);
    var used := q[i := q[i].(commitTimer := false)];
    assert used[i := used[i].(state := Finished, removeTimer := true)]
        == q[i := q[i].(commitTimer := false, state := Finished, removeTimer := true)];
  }

  lemma {:induction false} CommitShape(q: Queue, tid: string)
    requires WellFormed(q) && CommitAccepted(q, tid)
    ensures var i := Find(q, tid);
            && (q[i].state == New || q[i].state == WaitingForAuth)
            && Commit(q, tid) == if ActiveItem(q, 0) == |q|
                                 then q[i := q[i].(commitTimer := false, state := Running, idle := true)]
                                 else q[i := q[i].(commitTimer := false, state := Ready)]
  {
    var i := Find(q, tid);
    var marked := q[i := q[i].(state := Ready, commitTimer := false)];
    assert marked == q[i := q[i].(state := SetState(q[i].state, Committed).0, commitTimer := false)];
    assert forall j :: 0 <= j < |q| ==> (marked[j].state == Running <==> q[j].state == Running);
    assert RunItem(marked, i) == q[i := q[i].(commitTimer := false, state := Running, idle := true)];
  }

  lemma {:induction false} UpdateWellFormed(q: Queue, i: nat, x: Item)
    requires WellFormed(q) && i < |q| && x.tid == q[i].tid && TimersOk(x)
    ensures WellFormed(q[i := x])
  {
  }

  lemma {:induction false} RemoveAtWellFormed(q: Queue, i: nat)
    requires WellFormed(q) && i < |q|
    ensures WellFormed(RemoveAt(q, i))
  {
    var r := RemoveAt(q, i);
    forall j | 0 <= j < |r| ensures r[j] == q[if j < i then j else j + 1] {}
  }

  lemma {:induction false} FinishWellFormed(q: Queue, tid: string)
    requires WellFormed(q)
    ensures WellFormed(Finish(q, tid))
  {
    if FinishAccepted(q, FinishSignalled(tid)) {
      FinishShape(q, tid);
      var i := Find(q, tid);
      var done := q[i := q[i].(commitTimer := false, state := Finished, removeTimer := true)];
      UpdateWellFormed(q, i, done[i]);
      StartNextShape(done);
      var n := NextItem(done);
      if n < |done| { UpdateWellFormed(done, n, done[n].(state := Running, idle := true)); }
    }
  }

  lemma {:induction false} StepWellFormed(q: Queue, e: Event)
    requires WellFormed(q)
    ensures WellFormed(Step(q, e))
  {
    var i := Find(q, e.tid);
    var r := Step(q, e);
    if e.FinishSignalled? {
      FinishWellFormed(q, e.tid);
    } else if e.CommitRequested? {
      if CommitAccepted(q, e.tid) {
        CommitShape(q, e.tid);
        UpdateWellFormed(q, i, r[i]);
      }
    } else if r != q && i < |q| {
      if |r| == |q| { UpdateWellFormed(q, i, r[i]); } else { RemoveAtWellFormed(q, i); }
    }
  }

  lemma {:induction false} RunWellFormed(q: Queue, events: seq<Event>)
    requires WellFormed(q)
    ensures WellFormed(Run(q, events))
    decreases |events|
  {
    if events != [] {
      StepWellFormed(q, events[0]);
      RunWellFormed(Step(q, events[0]), events[1..]);
    }
  }

  // ----- the running bound -----

  function RunningWeight(item: Item): nat { if item.state == Running then 1 else 0 }

  function RunningCount(q: Queue): nat { Total(q, RunningWeight) }

  lemma {:induction false} RunningCountZero(q: Queue)
    ensures RunningCount(q) == 0 <==> ActiveItem(q, 0) == |q|
    ensures RunningCount(q) == 0 <==> forall i :: 0 <= i < |q| ==> q[i].state != Running
  {
    TotalPositive(q, RunningWeight);
    var a := ActiveItem(q, 0);
    if a < |q| { assert RunningWeight(q[a]) > 0; }
  }

  predicate FinishAccepted(q: Queue, e: Event) {
    e.FinishSignalled? && var i := Find(q, e.tid); i < |q| && q[i].state != Finished
  }

  /** An accepted finish of a transaction that was not running: a cancel of a pending one, a
      cache hit, a failed authorization. */
  predicate StrayFinish(q: Queue, e: Event) {
    FinishAccepted(q, e) && q[Find(q, e.tid)].state != Running
  }

  function StrayFinishes(q: Queue, events: seq<Event>): nat
    decreases |events|
  {
    if events == [] then 0
    else (if StrayFinish(q, events[0]) then 1 else 0) + StrayFinishes(Step(q, events[0]), events[1..])
  }

  predicate SomeOtherReady(q: Queue, i: nat) {
    exists j :: 0 <= j < |q| && j != i && q[j].state == Ready
  }

  /** An accepted finish takes one item out of running and puts one back exactly when some other
      item is ready. */
  lemma {:induction false} FinishRunningCount(q: Queue, e: Event)
    requires WellFormed(q) && FinishAccepted(q, e)
    ensures var i := Find(q, e.tid);
            RunningCount(Step(q, e)) + RunningWeight(q[i])
            == RunningCount(q) + (if SomeOtherReady(q, i) then 1 else 0)
  {
    var i := Find(q, e.tid);
    var done := q[i := q[i].(commitTimer := false, state := Finished, removeTimer := true)];
    FinishShape(q, e.tid);
    StartNextShape(done);
    TotalUpdate(q, i, done[i], RunningWeight);
    var n := NextItem(done);
    if n < |done| {
      TotalUpdate(done, n, done[n].(state := Running, idle := true), RunningWeight);
      assert n != i && q[n].state == Ready;
    } else {
      forall j | 0 <= j < |q| && j != i ensures q[j].state != Ready { assert done[j] == q[j]; }
    }
  }

  /** Every other step starts an item only when none is running. */
  lemma {:induction false} OtherRunningCount(q: Queue, e: Event)
    requires WellFormed(q) && !FinishAccepted(q, e)
    ensures RunningCount(Step(q, e)) <= if RunningCount(q) > 1 then RunningCount(q) else 1
  {
    var i := Find(q, e.tid);
    var r := Step(q, e);
    if r == q || e.FinishSignalled? {
    } else if e.Created? {
      TotalAppend(q, [r[|q|]], RunningWeight);
    } else if e.CommitRequested? {
      CommitShape(q, e.tid);
      RunningCountZero(q);
      TotalUpdate(q, i, r[i], RunningWeight);
    } else if |r| == |q| {
      TotalUpdate(q, i, r[i], RunningWeight);
      assert r == q[i := r[i]];
    } else {
      TotalRemove(q, i, RunningWeight);
    }
  }

  lemma {:induction false} StepRunningBound(q: Queue, e: Event, bound: nat)
    requires WellFormed(q) && RunningCount(q) <= bound && 1 <= bound
    ensures RunningCount(Step(q, e)) <= bound + if StrayFinish(q, e) then 1 else 0
  {
    if FinishAccepted(q, e) { FinishRunningCount(q, e); } else { OtherRunningCount(q, e); }
  }

  /** At most one transaction runs, plus one for every finish delivered to a transaction that
      was not running. */
  lemma {:induction false} RunningBound(q: Queue, events: seq<Event>, bound: nat)
    requires WellFormed(q) && RunningCount(q) <= bound && 1 <= bound
    ensures RunningCount(Run(q, events)) <= bound + StrayFinishes(q, events)
    decreases |events|
  {
    if events != [] {
      StepWellFormed(q, events[0]);
      StepRunningBound(q, events[0], bound);
      RunningBound(Step(q, events[0]), events[1..], bound + if StrayFinish(q, events[0]) then 1 else 0);
    }
  }

  lemma {:induction false} MutualExclusion(events: seq<Event>)
    requires StrayFinishes([], events) == 0
    ensures RunningCount(Run([], events)) <= 1
  {
    RunningBound([], events, 1);
  }

  /** The one way a step ends mutual exclusion: a transaction that is not the running one
      finishes while yet another is ready. */
  lemma {:induction false} ExclusionLostExactly(q: Queue, e: Event)
    requires WellFormed(q) && RunningCount(q) <= 1
    ensures RunningCount(Step(q, e)) > 1 <==>
            StrayFinish(q, e) && RunningCount(q) == 1 && SomeOtherReady(q, Find(q, e.tid))
  {
    if FinishAccepted(q, e) { FinishRunningCount(q, e); } else { OtherRunningCount(q, e); }
  }

  lemma {:induction false} RunAppend(q: Queue, events: seq<Event>, more: seq<Event>)
    ensures Run(q, events + more) == Run(Run(q, events), more)
    decreases |events|
  {
    if events == [] {
      assert events + more == more;
    } else {
      assert (events + more)[1..] == events[1..] + more;
      RunAppend(Step(q, events[0]), events[1..], more);
    }
  }

  lemma {:induction false} RunOne(q: Queue, e: Event)
    ensures Run(q, [e]) == Step(q, e)
  {
    assert [e][1..] == [];
  }

  lemma {:induction false} RunTwo(q: Queue, e0: Event, e1: Event)
    ensures Run(q, [e0, e1]) == Step(Step(q, e0), e1)
  {
    assert [e0, e1][1..] == [e1];
    RunOne(Step(q, e0), e1);
  }

  function Fresh(tid: string): Item { Item(tid, 0, New, false, true, false, false) }
  function Waiting(tid: string): Item { Item(tid, 0, Ready, false, false, false, false) }
  function Started(tid: string): Item { Item(tid, 0, Running, false, false, true, false) }

  lemma {:induction false} CommitStep(q: Queue, i: nat)
    requires WellFormed(q) && i < |q| && q[i].state == New
    ensures Step(q, CommitRequested(q[i].tid))
         == if ActiveItem(q, 0) == |q|
            then q[i := q[i].(commitTimer := false, state := Running, idle := true)]
            else q[i := q[i].(commitTimer := false, state := Ready)]
  {
    FindAt(q, i);
    CommitShape(q, q[i].tid);
  }

  lemma {:induction false} RunThree(q: Queue, e0: Event, e1: Event, e2: Event)
    ensures Run(q, [e0, e1, e2]) == Step(Step(Step(q, e0), e1), e2)
  {
    assert [e0, e1, e2][1..] == [e1, e2] && [e1, e2][1..] == [e2];
    assert Run(Step(q, e0), [e1, e2]) == Run(Step(Step(q, e0), e1), [e2]);
    assert Run(Step(Step(q, e0), e1), [e2]) == Run(Step(Step(Step(q, e0), e1), e2), []);
  }

  lemma {:induction false} ThreeCreated(a: string, b: string, c: string)
    requires a != b && a != c && b != c
    ensures Run([], [Created(a, 0, 9), Created(b, 0, 9), Created(c, 0, 9)]) == [Fresh(a), Fresh(b), Fresh(c)]
  {
    RunThree([], Created(a, 0, 9), Created(b, 0, 9), Created(c, 0, 9));
  }

  lemma {:induction false} ThreeCommitted(a: string, b: string, c: string)
    requires a != b && a != c && b != c
    ensures Run([Fresh(a), Fresh(b), Fresh(c)], [CommitRequested(a), CommitRequested(b), CommitRequested(c)])
         == [Started(a), Waiting(b), Waiting(c)]
  {
    var q0, q1 := [Fresh(a), Fresh(b), Fresh(c)], [Started(a), Fresh(b), Fresh(c)];
    var q2, q3 := [Started(a), Waiting(b), Fresh(c)], [Started(a), Waiting(b), Waiting(c)];
    CommitStep(q0, 0);
    assert Step(q0, CommitRequested(a)) == q1;
    CommitStep(q1, 1);
    assert Step(q1, CommitRequested(b)) == q2;
    CommitStep(q2, 2);
    assert Step(q2, CommitRequested(c)) == q3;
    RunThree(q0, CommitRequested(a), CommitRequested(b), CommitRequested(c));
  }

  /** The queue after two transactions were created and committed: the first is started. */
  lemma {:induction false} TwoCommitted(a: string, b: string)
    requires a != b
    ensures Run([], [Created(a, 0, 9), Created(b, 0, 9), CommitRequested(a)])
         == [Started(a), Fresh(b)]
    ensures Step([Started(a), Fresh(b)], CommitRequested(b)) == [Started(a), Waiting(b)]
  {
    RunThree([], Created(a, 0, 9), Created(b, 0, 9), CommitRequested(a));
    CommitStep([Fresh(a), Fresh(b)], 0);
    CommitStep([Started(a), Fresh(b)], 1);
  }

  /** Three commits and a cancel of the second: the first and the third now run together. */
  lemma {:induction false} ExclusionCounterexample(a: string, b: string, c: string)
    requires a != b && a != c && b != c
    ensures var q := Run([], [Created(a, 0, 9), Created(b, 0, 9), Created(c, 0, 9)]
                           + [CommitRequested(a), CommitRequested(b), CommitRequested(c)]);
            RunningCount(q) == 1 && RunningCount(Step(q, FinishSignalled(b))) == 2
  {
    ThreeCreated(a, b, c);
    ThreeCommitted(a, b, c);
    RunAppend([], [Created(a, 0, 9), Created(b, 0, 9), Created(c, 0, 9)],
              [CommitRequested(a), CommitRequested(b), CommitRequested(c)]);
    var q := [Started(a), Waiting(b), Waiting(c)];
    FindAt(q, 1);
    RunningCountZero(q[1..]);
    assert q[2].state == Ready;
    FinishRunningCount(q, FinishSignalled(b));
  }
}
