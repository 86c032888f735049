/** What every request and timer does to the listed transactions, case by case. */
module SchedulerRules {
  import opened Shared
  import opened Scheduler
  import opened SchedulerProofs
  import opened SchedulerProgress

  // ----- states -----

  /** The order in which a transaction passes through its states. */
  const LIFE: seq<TransactionState> := [New, WaitingForAuth, Committed, Ready, Running, Finished]

  /** Moving on is accepted and moving back refused; nobody ever sees a transaction committed, it is ready
      at once. */
  lemma {:induction false} StateMoves(i: nat, j: nat)
    requires i < 6 && j < 6
    ensures SetState(LIFE[i], LIFE[j])
         == if j < i then (LIFE[i], false) else if j == 2 then (Ready, true) else (LIFE[j], true)
    ensures SetState(Unknown, New) == (New, true)
  {
    assert SetState(Committed, Ready) == (Ready, true);
  }

  // ----- one transaction and the others -----

  /** Every transaction but `tid` is listed as before, in the same order. */
  ghost predicate OthersKept(q: Queue, r: Queue, tid: string) {
    && (forall other :: other != tid ==> (Listed(r, other) <==> Listed(q, other)))
    && (forall other :: other != tid && Listed(q, other) && Listed(r, other) ==> Get(r, other) == Get(q, other))
    && (forall a, b :: a != tid && b != tid && Listed(q, a) && Listed(q, b) ==>
          (Find(r, a) < Find(r, b) <==> Find(q, a) < Find(q, b)))
  }

  lemma {:induction false} UpdateKeepsOthers(q: Queue, i: nat, x: Item)
    requires WellFormed(q) && i < |q| && x.tid == q[i].tid
    ensures OthersKept(q, q[i := x], x.tid) && Listed(q[i := x], x.tid) && Get(q[i := x], x.tid) == x
  {
    FindAt(q, i);
    forall other ensures Find(q[i := x], other) == Find(q, other) { FindAfterUpdate(q, i, x, other); }
  }

  lemma {:induction false} RemoveKeepsOthers(q: Queue, i: nat)
    requires WellFormed(q) && i < |q|
    ensures OthersKept(q, RemoveAt(q, i), q[i].tid) && !Listed(RemoveAt(q, i), q[i].tid)
  {
    var r, tid := RemoveAt(q, i), q[i].tid;
    FindAt(q, i);
    forall other
      ensures Find(r, other) == if Find(q, other) == i then |q| - 1 else
                                if Find(q, other) < i then Find(q, other) else Find(q, other) - 1
    {
      FindAfterRemove(q, i, other);
    }
    forall other | other != tid && Listed(q, other) ensures Listed(r, other) && Get(r, other) == Get(q, other) {
      assert Find(q, other) != i;
      GetAfterRemove(q, i, other);
    }
  }

  // ----- requests -----

  /** A new transaction waits for its commit at the end of the list, with the commit timer running; a known
      id or a user above the limit is refused. */
  lemma {:induction false} CreateExactly(q: Queue, tid: string, uid: nat, limit: nat)
    requires WellFormed(q)
    ensures var r := Step(q, Created(tid, uid, limit));
            if !Listed(q, tid) && CountUid(q, uid) <= limit
            then OthersKept(q, r, tid) && Listed(r, tid) && Find(r, tid) == |q| == |r| - 1
                 && Get(r, tid) == Item(tid, uid, New, false, true, false, false)
            else r == q
  {
    if !Listed(q, tid) && CountUid(q, uid) <= limit {
      var x := Item(tid, uid, New, false, true, false, false);
      FindInAppended(q, x, tid);
      AppendKeepsOthers(q, x);
    }
  }

  lemma {:induction false} FindInAppended(q: Queue, x: Item, tid: string)
    requires !Listed(q, x.tid)
    ensures Find(q + [x], tid) == if Listed(q, tid) then Find(q, tid) else if tid == x.tid then |q| else |q| + 1
  {
    var r := q + [x];
    assert forall j :: 0 <= j < |q| ==> r[j] == q[j];
    assert r[|q|] == x;
    if Listed(q, tid) {
      FindAfterAppend(q, x, tid);
    } else {
      assert forall j :: 0 <= j < |q| ==> r[j].tid != tid;
    }
  }

  lemma {:induction false} AppendKeepsOthers(q: Queue, x: Item)
    requires !Listed(q, x.tid)
    ensures OthersKept(q, q + [x], x.tid) && Listed(q + [x], x.tid) && Get(q + [x], x.tid) == x
  {
    var r := q + [x];
    forall tid ensures Find(r, tid) == if Listed(q, tid) then Find(q, tid) else if tid == x.tid then |q| else |q| + 1 {
      FindInAppended(q, x, tid);
    }
  }

  lemma {:induction false} SetBackgroundExactly(q: Queue, tid: string, background: bool)
    requires WellFormed(q)
    ensures var r := Step(q, BackgroundSet(tid, background));
            if Listed(q, tid) && Get(q, tid).state != Finished
            then OthersKept(q, r, tid) && Listed(r, tid) && Get(r, tid) == Get(q, tid).(background := background)
            else r == q
  {
    if Listed(q, tid) { UpdateKeepsOthers(q, Find(q, tid), Get(q, tid).(background := background)); }
  }

  lemma {:induction false} AuthorizeExactly(q: Queue, tid: string)
    requires WellFormed(q)
    ensures var r := Step(q, AuthRequested(tid));
            if Listed(q, tid) && Get(q, tid).state == New
            then OthersKept(q, r, tid) && Listed(r, tid) && Get(r, tid) == Get(q, tid).(state := WaitingForAuth)
            else r == q
  {
    if Listed(q, tid) { UpdateKeepsOthers(q, Find(q, tid), Get(q, tid).(state := WaitingForAuth)); }
  }

  /** The transaction after its first commit: it runs if nothing else does. */
  function AfterCommit(q: Queue, item: Item): Item {
    if NoneRunning(q) then item.(state := Running, commitTimer := false, idle := true)
    else item.(state := Ready, commitTimer := false)
  }

  /** A first commit is accepted, and a second refused. */
  lemma {:induction false} CommitExactly(q: Queue, tid: string)
    requires WellFormed(q)
    ensures var r := Step(q, CommitRequested(tid));
            if Listed(q, tid) && (Get(q, tid).state == New || Get(q, tid).state == WaitingForAuth)
            then OthersKept(q, r, tid) && Listed(r, tid) && Get(r, tid) == AfterCommit(q, Get(q, tid))
            else r == q
    ensures CommitAccepted(q, tid) <==>
              Listed(q, tid) && (Get(q, tid).state == New || Get(q, tid).state == WaitingForAuth)
  {
    if CommitAccepted(q, tid) {
      CommitShape(q, tid);
      RunningCountZero(q);
      UpdateKeepsOthers(q, Find(q, tid), AfterCommit(q, Get(q, tid)));
    } else if Listed(q, tid) {
      assert TimersOk(Get(q, tid));
    }
  }

  lemma {:induction false} ReleaseShape(q: Queue, i: nat)
    requires WellFormed(q) && i < |q|
    ensures Remove(q, q[i].tid)
         == if q[i].state == Finished || (q[i].state == Running && !q[i].idle) then q else RemoveAt(q, i)
  {
    FindAt(q, i);
    assert TimersOk(q[i]);
    if q[i].state == Running && !q[i].idle { assert q[i].(removeTimer := false) == q[i] && q[i := q[i]] == q; }
  }

  /** A finished or executing transaction is not released; any other leaves the list. */
  lemma {:induction false} ReleaseExactly(q: Queue, tid: string)
    requires WellFormed(q)
    ensures var r := Step(q, Released(tid));
            if Listed(q, tid) && Get(q, tid).state != Finished && (Get(q, tid).state == Running ==> Get(q, tid).idle)
            then OthersKept(q, r, tid) && !Listed(r, tid)
            else r == q
  {
    var i, r := Find(q, tid), Step(q, Released(tid));
    if i < |q| {
      ReleaseShape(q, i);
      if q[i].state == Finished || (q[i].state == Running && !q[i].idle) {
        assert r == q;
      } else {
        assert r == RemoveAt(q, i);
        RemoveKeepsOthers(q, i);
      }
    }
  }

  // ----- timers -----

  /** The commit timer drops what nobody committed, the remove timer what is finished, and the idle callback
      is used up. */
  lemma {:induction false} TimersExactly(q: Queue, tid: string)
    requires WellFormed(q)
    ensures var r := Step(q, CommitTimerFired(tid));
            if Listed(q, tid) && (Get(q, tid).state == New || Get(q, tid).state == WaitingForAuth)
            then OthersKept(q, r, tid) && !Listed(r, tid) else r == q
    ensures var r := Step(q, RemoveTimerFired(tid));
            if Listed(q, tid) && Get(q, tid).state == Finished
            then OthersKept(q, r, tid) && !Listed(r, tid) else r == q
    ensures var r := Step(q, IdleFired(tid));
            if Listed(q, tid) && Get(q, tid).idle
            then OthersKept(q, r, tid) && Listed(r, tid) && Get(r, tid) == Get(q, tid).(idle := false) else r == q
  {
    if Listed(q, tid) {
      assert TimersOk(Get(q, tid));
      RemoveKeepsOthers(q, Find(q, tid));
      UpdateKeepsOthers(q, Find(q, tid), Get(q, tid).(idle := false));
    }
  }

  // ----- requests of several steps -----

  /** A client's first commit takes over its hint. A commit of a ready transaction fails, and takes it off the
      list. */
  lemma {:induction false} ClientCommitExactly(q: Queue, tid: string, hint: Hint)
    requires WellFormed(q) && Listed(q, tid)
    ensures var r, was := Run(q, ClientCommitEvents(q, tid, hint)), Get(q, tid);
            var hinted := if hint == HintUnset then was else was.(background := hint == HintTrue);
            match was.state
            case New => Listed(r, tid) && Get(r, tid) == AfterCommit(q, hinted)
            case WaitingForAuth => Listed(r, tid) && Get(r, tid) == AfterCommit(q, hinted)
            case Ready => !Listed(r, tid)
            case _ => true
  {
    var q1 := Run(q, HintEvents(tid, hint));
    var was := Get(q, tid);
    assert TimersOk(was);
    Hinted(q, tid, hint);
    CommitExactly(q1, tid);
    var c := CommitRequested(tid);
    if CommitAccepted(q1, tid) {
      RunAppend(q, HintEvents(tid, hint), [c]);
      RunOne(q1, c);
    } else {
      RunAppend(q, HintEvents(tid, hint), [c, Released(tid)]);
      assert [c, Released(tid)] == [c] + [Released(tid)];
      RunAppend(q1, [c], [Released(tid)]);
      RunOne(q1, c);
      RunOne(Step(q1, c), Released(tid));
      ReleaseExactly(q1, tid);
    }
  }

  lemma {:induction false} Hinted(q: Queue, tid: string, hint: Hint)
    requires WellFormed(q) && Listed(q, tid)
    ensures var r, was := Run(q, HintEvents(tid, hint)), Get(q, tid);
            && WellFormed(r) && Listed(r, tid) && (NoneRunning(r) <==> NoneRunning(q))
            && Get(r, tid) == if hint == HintUnset || was.state == Finished then was
                              else was.(background := hint == HintTrue)
  {
    if hint != HintUnset {
      var e := BackgroundSet(tid, hint == HintTrue);
      RunOne(q, e);
      StepWellFormed(q, e);
      SetBackgroundExactly(q, tid, hint == HintTrue);
      var i, r := Find(q, tid), Step(q, e);
      assert |r| == |q| && forall j :: 0 <= j < |q| ==> r[j].state == q[j].state;
    }
  }

  /** A refused authorization finishes the transaction, whatever it is doing. */
  lemma {:induction false} RefusalFinishes(q: Queue, tid: string, hint: Hint)
    requires WellFormed(q) && Listed(q, tid)
    ensures var r := Run(q, AuthorizationEvents(q, tid, false, hint));
            Listed(r, tid) && Get(r, tid).state == Finished
  {
    RunOne(q, FinishSignalled(tid));
    if Get(q, tid).state != Finished { GetAfterFinish(q, FinishSignalled(tid), tid); }
  }

  /** The transactions that the backend is asked to cancel: all that run in the background. */
  lemma {:induction false} RunningBackgroundExactly(q: Queue, from: nat, tid: string)
    requires from <= |q|
    ensures tid in RunningBackground(q, from) <==>
              exists i :: from <= i < |q| && q[i].tid == tid && q[i].state == Running && q[i].background
    decreases |q| - from
  {
    if from < |q| { RunningBackgroundExactly(q, from + 1, tid); }
  }
}
