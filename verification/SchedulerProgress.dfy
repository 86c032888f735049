/** Work conservation, priority, bounded waiting and draining of the transaction list. */
module SchedulerProgress {
  import opened Totals
  import opened Scheduler
  import opened SchedulerProofs

  // ----- states never go back -----

  predicate Listed(q: Queue, tid: string) { Find(q, tid) < |q| }

  function Get(q: Queue, tid: string): Item
    requires Listed(q, tid)
  {
    q[Find(q, tid)]
  }

  lemma {:induction false} FindAfterRemove(q: Queue, i: nat, tid: string)
    requires Distinct(q) && i < |q|
    ensures var p := Find(q, tid);
            Find(RemoveAt(q, i), tid) == if p == i then |q| - 1 else if p < i then p else p - 1
  {
    var r, p := RemoveAt(q, i), Find(q, tid);
    assert forall j :: 0 <= j < |r| ==> r[j] == q[if j < i then j else j + 1];
    if p < |q| && p != i {
      var k := if p < i then p else p - 1;
      assert r[k] == q[p];
    }
  }

  lemma {:induction false} FindAfterAppend(q: Queue, x: Item, tid: string)
    requires Listed(q, tid)
    ensures Find(q + [x], tid) == Find(q, tid)
  {
    assert forall j :: 0 <= j < |q| ==> (q + [x])[j] == q[j];
  }

  lemma {:induction false} GetAfterUpdate(q: Queue, i: nat, x: Item, tid: string)
    requires i < |q| && x.tid == q[i].tid && Listed(q, tid)
    ensures Listed(q[i := x], tid)
    ensures Get(q[i := x], tid) == if Find(q, tid) == i then x else Get(q, tid)
  {
    FindAfterUpdate(q, i, x, tid);
  }

  lemma {:induction false} GetAfterRemove(q: Queue, i: nat, tid: string)
    requires Distinct(q) && i < |q| && Listed(q, tid) && Listed(RemoveAt(q, i), tid)
    ensures Find(q, tid) != i && Get(RemoveAt(q, i), tid) == Get(q, tid)
  {
    FindAfterRemove(q, i, tid);
    var p := Find(q, tid);
    assert p != i;
    assert RemoveAt(q, i)[if p < i then p else p - 1] == q[p];
  }

  /** An accepted finish changes the finished item and at most one more, which was ready. */
  lemma {:induction false} GetAfterFinish(q: Queue, e: Event, tid: string)
    requires WellFormed(q) && FinishAccepted(q, e) && Listed(q, tid)
    ensures Listed(Step(q, e), tid)
    ensures var was, now := Get(q, tid), Get(Step(q, e), tid);
            if tid == e.tid then now == was.(commitTimer := false, state := Finished, removeTimer := true)
            else now == was || (was.state == Ready && now == was.(state := Running, idle := true))
  {
    var i := Find(q, e.tid);
    FinishShape(q, e.tid);
    var done := q[i := q[i].(commitTimer := false, state := Finished, removeTimer := true)];
    StartNextShape(done);
    GetAfterUpdate(q, i, done[i], tid);
    var n := NextItem(done);
    if n < |done| { GetAfterUpdate(done, n, done[n].(state := Running, idle := true), tid); }
  }

  predicate MayBecome(was: Item, now: Item, e: Event) {
    && Rank(was.state) <= Rank(now.state)
    && (was.background != now.background ==> e == BackgroundSet(was.tid, now.background))
    && (now.state == Finished && was.state != Finished ==> e == FinishSignalled(was.tid))
    && (now.state == Running && was.state != Running ==> e.CommitRequested? || e.FinishSignalled?)
  }

  lemma {:induction false} UpdateOnOne(q: Queue, e: Event, i: nat, x: Item, tid: string)
    requires i < |q| && Listed(q, tid) && x.tid == q[i].tid && q[i].tid == e.tid
    requires Step(q, e) == q[i := x] && MayBecome(q[i], x, e)
    ensures Listed(Step(q, e), tid) && MayBecome(Get(q, tid), Get(Step(q, e), tid), e)
  {
    GetAfterUpdate(q, i, x, tid);
  }

  /** The steps that change one item in place, apart from a finish and a commit. */
  lemma {:induction false} ItemMayBecome(q: Queue, e: Event)
    requires WellFormed(q) && !e.FinishSignalled? && !e.CommitRequested? && !e.Created?
    requires Step(q, e) != q && |Step(q, e)| == |q|
    ensures var i, r := Find(q, e.tid), Step(q, e);
            i < |q| && r[i].tid == q[i].tid && r == q[i := r[i]] && MayBecome(q[i], r[i], e)
  {
    var i, r := Find(q, e.tid), Step(q, e);
    assert r == q[i := r[i]];
  }

  lemma {:induction false} CommitMayBecome(q: Queue, e: Event)
    requires WellFormed(q) && e.CommitRequested? && Step(q, e) != q
    ensures var i, r := Find(q, e.tid), Step(q, e);
            i < |q| && r[i].tid == q[i].tid && r == q[i := r[i]] && MayBecome(q[i], r[i], e)
  {
    CommitShape(q, e.tid);
  }

  /** What one step may do to one listed transaction. */
  lemma {:induction false} StepOnOne(q: Queue, e: Event, tid: string)
    requires WellFormed(q) && Listed(q, tid) && Listed(Step(q, e), tid)
    ensures MayBecome(Get(q, tid), Get(Step(q, e), tid), e)
  {
    var i, r := Find(q, e.tid), Step(q, e);
    if r == q {
    } else if e.FinishSignalled? {
      GetAfterFinish(q, e, tid);
    } else if e.CommitRequested? {
      CommitMayBecome(q, e);
      UpdateOnOne(q, e, i, r[i], tid);
    } else if e.Created? {
      FindAfterAppend(q, r[|q|], tid);
    } else if |r| == |q| {
      ItemMayBecome(q, e);
      UpdateOnOne(q, e, i, r[i], tid);
    } else {
      assert r == RemoveAt(q, i);
      GetAfterRemove(q, i, tid);
    }
  }

  // ----- work conservation -----

  predicate NoneRunning(q: Queue) { forall i :: 0 <= i < |q| ==> q[i].state != Running }
  predicate NoneReady(q: Queue) { forall i :: 0 <= i < |q| ==> q[i].state != Ready }
  predicate Conserved(q: Queue) { NoneRunning(q) ==> NoneReady(q) }

  /** A release that takes away a running transaction whose idle callback is still pending. */
  predicate DropsRunning(q: Queue, e: Event) {
    e.Released? && var i := Find(q, e.tid); i < |q| && q[i].state == Running && q[i].idle
  }

  lemma {:induction false} RemoveKeepsReady(q: Queue, i: nat)
    requires i < |q| && q[i].state != Ready
    ensures NoneReady(RemoveAt(q, i)) <==> NoneReady(q)
  {
    var r := RemoveAt(q, i);
    if NoneReady(q) {
      forall j | 0 <= j < |r| ensures r[j].state != Ready {
        var k := if j < i then j else j + 1;
        assert r[j] == q[k];
      }
    } else {
      var j :| 0 <= j < |q| && q[j].state == Ready;
      var k := if j < i then j else j - 1;
      assert r[k] == q[j];
    }
  }

  lemma {:induction false} DropConserved(q: Queue, e: Event)
    requires WellFormed(q) && DropsRunning(q, e)
    ensures NoneRunning(Step(q, e)) <==> RunningCount(q) == 1
    ensures NoneReady(Step(q, e)) <==> NoneReady(q)
  {
    var i := Find(q, e.tid);
    assert Step(q, e) == RemoveAt(q, i);
    TotalRemove(q, i, RunningWeight);
    RunningCountZero(RemoveAt(q, i));
    RemoveKeepsReady(q, i);
  }

  lemma {:induction false} FinishConserved(q: Queue, e: Event)
    requires WellFormed(q) && FinishAccepted(q, e)
    ensures Conserved(Step(q, e))
  {
    var i, r := Find(q, e.tid), Step(q, e);
    FinishShape(q, e.tid);
    var done := q[i := q[i].(commitTimer := false, state := Finished, removeTimer := true)];
    StartNextShape(done);
    var n := NextItem(done);
    if n < |done| { assert r[n].state == Running; }
  }

  lemma {:induction false} CommitConserved(q: Queue, tid: string)
    requires WellFormed(q) && Conserved(q) && CommitAccepted(q, tid)
    ensures Conserved(Step(q, CommitRequested(tid)))
  {
    var r := Step(q, CommitRequested(tid));
    CommitShape(q, tid);
    var a := if ActiveItem(q, 0) == |q| then Find(q, tid) else ActiveItem(q, 0);
    assert r[a].state == Running;
  }

  /** An item that changes to a state below ready, or does not change its state at all. */
  lemma {:induction false} UpdateConserved(q: Queue, i: nat, item: Item)
    requires Conserved(q) && i < |q| && (item.state == WaitingForAuth || item.state == q[i].state)
    requires q[i].state == Running ==> item.state == Running
    ensures Conserved(q[i := item])
  {
    var r := q[i := item];
    if NoneRunning(r) {
      forall j | 0 <= j < |q| ensures q[j].state != Running { assert r[j].state != Running; }
    }
  }

  lemma {:induction false} RemoveConserved(q: Queue, i: nat)
    requires Conserved(q) && i < |q| && q[i].state != Running
    ensures Conserved(RemoveAt(q, i))
  {
    var r := RemoveAt(q, i);
    assert forall j :: 0 <= j < |r| ==> r[j] == q[if j < i then j else j + 1];
    if NoneRunning(r) {
      forall j | 0 <= j < |q| ensures q[j].state != Running {
        if j != i { assert q[j] == r[if j < i then j else j - 1]; }
      }
    }
  }

  lemma {:induction false} AppendConserved(q: Queue, item: Item)
    requires Conserved(q) && item.state != Ready
    ensures Conserved(q + [item])
  {
    var r := q + [item];
    if NoneRunning(r) {
      forall j | 0 <= j < |q| ensures q[j].state != Running { assert r[j].state != Running; }
    }
  }

  /** Work conservation survives every step but the release of the only running transaction
      while others are ready, and that step always ends it. */
  lemma {:induction false} ConservedExactly(q: Queue, e: Event)
    requires WellFormed(q) && Conserved(q)
    ensures Conserved(Step(q, e)) <==>
            !(DropsRunning(q, e) && RunningCount(q) == 1 && !NoneReady(q))
  {
    var i, r := Find(q, e.tid), Step(q, e);
    if DropsRunning(q, e) {
      DropConserved(q, e);
    } else if FinishAccepted(q, e) {
      FinishConserved(q, e);
    } else if e.CommitRequested? && CommitAccepted(q, e.tid) {
      CommitConserved(q, e.tid);
    } else if r == q {
    } else if |r| == |q| {
      assert r == q[i := r[i]];
      UpdateConserved(q, i, r[i]);
    } else if |r| < |q| {
      assert r == RemoveAt(q, i);
      RemoveConserved(q, i);
    } else {
      assert r == q + [r[|q|]];
      AppendConserved(q, r[|q|]);
    }
  }

  /** From the empty list: two commits, and the release of the first before its idle callback. The
      second is ready, nothing runs, and no finish will come to start it. */
  lemma {:induction false} ConservationCounterexample(a: string, b: string)
    requires a != b
    ensures var q := Run([], [Created(a, 0, 9), Created(b, 0, 9), CommitRequested(a)] + [CommitRequested(b)]);
            var r := Step(q, Released(a));
            && Conserved(q) && DropsRunning(q, Released(a))
            && r == [Waiting(b)] && !Conserved(r)
  {
    TwoCommitted(a, b);
    RunAppend([], [Created(a, 0, 9), Created(b, 0, 9), CommitRequested(a)], [CommitRequested(b)]);
    assert [CommitRequested(b)][1..] == [];
    var q := [Started(a), Waiting(b)];
    assert Run([Started(a), Fresh(b)], [CommitRequested(b)]) == Run(q, []) == q;
    assert q[0].state == Running;
    FindAt(q, 0);
    assert RemoveAt(q, 0) == [Waiting(b)];
    assert [Waiting(b)][0].state == Ready;
  }

  predicate NeverDrops(q: Queue, events: seq<Event>)
    decreases |events|
  {
    events == [] || (!DropsRunning(q, events[0]) && NeverDrops(Step(q, events[0]), events[1..]))
  }

  lemma {:induction false} RunConserved(q: Queue, events: seq<Event>)
    requires WellFormed(q) && Conserved(q) && NeverDrops(q, events)
    ensures Conserved(Run(q, events))
    decreases |events|
  {
    if events != [] {
      ConservedExactly(q, events[0]);
      StepWellFormed(q, events[0]);
      RunConserved(Step(q, events[0]), events[1..]);
    }
  }

  predicate ReadyBesides(q: Queue, i: nat, j: nat)
    requires j < |q|
  {
    j != i && q[j].state == Ready
  }

  /** When the transaction at `i` finishes, the one at `k` is next. */
  predicate IsNext(q: Queue, i: nat, k: nat)
    requires k < |q|
  {
    && ReadyBesides(q, i, k)
    && if q[k].background
       then forall j :: 0 <= j < |q| && ReadyBesides(q, i, j) ==> q[j].background && k <= j
       else forall j :: 0 <= j < |q| && ReadyBesides(q, i, j) && !q[j].background ==> k <= j
  }

  /** An accepted finish starts a transaction exactly when it is next: the first ready one in the
      foreground, or the first ready one where no foreground one is ready. */
  lemma {:induction false} FinishStartsExactly(q: Queue, e: Event, k: nat)
    requires WellFormed(q) && FinishAccepted(q, e) && k < |q|
    ensures var r := Step(q, e);
            |r| == |q| && (q[k].state != Running && r[k].state == Running <==> IsNext(q, Find(q, e.tid), k))
    ensures IsNext(q, Find(q, e.tid), k) ==> Step(q, e)[k] == q[k].(state := Running, idle := true)
  {
    var i := Find(q, e.tid);
    FinishShape(q, e.tid);
    var done := q[i := q[i].(commitTimer := false, state := Finished, removeTimer := true)];
    StartNextShape(done);
    var n := NextItem(done);
    assert forall j :: 0 <= j < |q| ==> (done[j].state == Ready <==> ReadyBesides(q, i, j));
    assert forall j :: 0 <= j < |q| ==> done[j].background == q[j].background;
    if IsNext(q, i, k) {
      assert done[k].state == Ready;
      assert n == k;
    } else if n == k {
      assert forall j :: 0 <= j < |q| && ReadyBesides(q, i, j) ==> done[j].state == Ready;
    }
  }

  predicate ReadyOnlyBackground(q: Queue) {
    forall k :: 0 <= k < |q| && q[k].state == Ready ==> q[k].background
  }

  lemma {:induction false} StartNextPriority(q: Queue, n: nat)
    requires n < |q| && n == NextItem(q) && q[n].background
    ensures ReadyOnlyBackground(StartNext(q))
  {
    assert FirstEligible(q, true, 0) == |q|;
    forall k | 0 <= k < |q| && q[k].state == Ready ensures q[k].background {
      assert !Eligible(q[k], true);
    }
  }

  /** No background transaction is ever started while a foreground one is ready. */
  lemma {:induction false} BackgroundStartsLast(q: Queue, e: Event, tid: string)
    requires WellFormed(q) && Conserved(q) && Listed(q, tid) && Listed(Step(q, e), tid)
    requires Get(q, tid).state != Running
    requires Get(Step(q, e), tid).state == Running && Get(Step(q, e), tid).background
    ensures ReadyOnlyBackground(Step(q, e))
  {
    var i, r := Find(q, e.tid), Step(q, e);
    StepOnOne(q, e, tid);
    if e.FinishSignalled? {
      FinishShape(q, e.tid);
      var done := q[i := q[i].(commitTimer := false, state := Finished, removeTimer := true)];
      GetAfterUpdate(q, i, done[i], tid);
      StartNextShape(done);
      var n := NextItem(done);
      assert n < |done|;
      GetAfterUpdate(done, n, done[n].(state := Running, idle := true), tid);
      StartNextPriority(done, n);
    } else {
      CommitShape(q, e.tid);
      GetAfterUpdate(q, i, r[i], tid);
      assert NoneRunning(q) && NoneReady(q) by { RunningCountZero(q); }
    }
  }

  /** The wedge check is content exactly when at most one transaction runs and not all of them, if there are
      any, wait. */
  lemma {:induction false} ConsistentMeans(q: Queue)
    requires WellFormed(q)
    ensures IsConsistent(q) <==> RunningCount(q) <= 1 && (q == [] || exists i :: 0 <= i < |q| && q[i].state != Ready)
  {
    CountRunning(q);
    CountWaiting(q);
    if q == [] { RunningCountZero(q); }
  }

  /** Where work is conserved it complains exactly when more than one transaction runs. */
  lemma {:induction false} ConsistentExactly(q: Queue)
    requires WellFormed(q) && Conserved(q)
    ensures IsConsistent(q) <==> RunningCount(q) <= 1
  {
    ConsistentMeans(q);
    if q != [] { assert q[0].state == Ready ==> !NoneReady(q); }
  }

  lemma {:induction false} CountRunning(q: Queue)
    ensures CountState(q, Running) == RunningCount(q)
  {
    if q != [] { CountRunning(q[1..]); }
  }

  lemma {:induction false} CountWaiting(q: Queue)
    requires forall i :: 0 <= i < |q| ==> q[i].state != Committed
    ensures CountState(q, Committed) == 0
    ensures CountState(q, Ready) == |q| <==> forall i :: 0 <= i < |q| ==> q[i].state == Ready
  {
    if q != [] {
      CountWaiting(q[1..]);
      assert forall i :: 1 <= i < |q| ==> q[i] == q[1..][i - 1];
      assert forall i :: 0 <= i < |q[1..]| ==> q[1..][i] == q[i + 1];
    }
  }
}
