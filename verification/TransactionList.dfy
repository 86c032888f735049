/**
 The transaction list as it works in place: an array of items whose states, timers and background
 flags are updated by client requests and main-loop callbacks. Every method is proved to do to the
 list's contents what its function in Scheduler does.
 */
module TransactionList {
  import opened Shared
  import opened Scheduler
  import opened SchedulerProofs
  import opened SchedulerProgress
  import opened SchedulerLiveness

  /** A list entry together with the state of the transaction it owns. */
  class TransactionItem {
    const tid: string
    const uid: nat
    var state: TransactionState
    var background: bool
    var commitTimer: bool
    var idle: bool
    var removeTimer: bool

    constructor (tid: string, uid: nat)
      ensures View() == Item(tid, uid, Unknown, false, false, false, false)
    {
      this.tid := tid;
      this.uid := uid;
      state := Unknown;
      background := false;
      commitTimer, idle, removeTimer := false, false, false;
    }

    ghost function View(): Item
      reads this
    {
      Item(tid, uid, state, background, commitTimer, idle, removeTimer)
    }

    /** A transaction never goes back, and a committed one is made ready in the same call. */
    method SetState(wanted: TransactionState) returns (ok: bool)
      modifies this`state
      ensures (state, ok) == Scheduler.SetState(old(state), wanted)
      decreases wanted == Committed
    {
      if state != Unknown && Rank(state) > Rank(wanted) {
        return false;
      }
      state := wanted;
      ok := true;
      if wanted == Committed {
        ok := SetState(Ready);
      }
    }
  }

  class TransactionList {
    var items: seq<TransactionItem>

    ghost predicate Valid()
      reads this
    {
      forall i, j :: 0 <= i < j < |items| ==> items[i] != items[j]
    }

    ghost function Contents(): (q: Queue)
      reads this, items
      ensures |q| == |items|
      ensures forall i :: 0 <= i < |q| ==> q[i] == items[i].View()
    {
      seq(|items|, i requires 0 <= i < |items| reads this, items => items[i].View())
    }

    constructor ()
      ensures Valid() && Contents() == []
    {
      items := [];
    }

    method GetFromTid(tid: string) returns (item: TransactionItem?)
      requires Valid()
      ensures var i := Find(Contents(), tid);
              if i == |items| then item == null else item == items[i]
    {
      var i := 0;
      while i < |items|
        invariant i <= |items|
        invariant FindFrom(Contents(), tid, i) == Find(Contents(), tid)
      {
        if items[i].tid == tid {
          return items[i];
        }
        i := i + 1;
      }
      return null;
    }

    method GetNextItem() returns (item: TransactionItem?)
      requires Valid()
      ensures var i := NextItem(Contents());
              if i == |items| then item == null else item == items[i]
    {
      var i := 0;
      while i < |items|
        invariant i <= |items|
        invariant FirstEligible(Contents(), true, i) == FirstEligible(Contents(), true, 0)
      {
        if items[i].state == Ready && !items[i].background {
          return items[i];
        }
        i := i + 1;
      }
      i := 0;
      while i < |items|
        invariant i <= |items|
        invariant FirstEligible(Contents(), false, i) == FirstEligible(Contents(), false, 0)
      {
        if items[i].state == Ready {
          return items[i];
        }
        i := i + 1;
      }
      return null;
    }

    method GetActiveTransaction() returns (item: TransactionItem?)
      requires Valid()
      ensures var i := ActiveItem(Contents(), 0);
              if i == |items| then item == null else item == items[i]
    {
      var i := 0;
      while i < |items|
        invariant i <= |items|
        invariant ActiveItem(Contents(), i) == ActiveItem(Contents(), 0)
      {
        if items[i].state == Running {
          return items[i];
        }
        i := i + 1;
      }
      return null;
    }

    method NumberOfTransactionsForUid(uid: nat) returns (count: nat)
      requires Valid()
      ensures count == CountUid(Contents(), uid)
    {
      var i := 0;
      count := 0;
      while i < |items|
        invariant i <= |items|
        invariant count + CountUid(Contents()[i..], uid) == CountUid(Contents(), uid)
      {
        assert Contents()[i..][1..] == Contents()[i + 1..];
        if items[i].uid == uid {
          count := count + 1;
        }
        i := i + 1;
      }
    }

    method Create(tid: string, uid: nat, limit: nat) returns (ok: bool)
      requires Valid()
      modifies this
      ensures Valid() && Contents() == Scheduler.Create(old(Contents()), tid, uid, limit)
      ensures ok <==> !Listed(old(Contents()), tid) && CountUid(old(Contents()), uid) <= limit
      ensures ok ==> items == old(items) + [items[|items| - 1]] && fresh(items[|items| - 1])
      ensures !ok ==> items == old(items)
    {
      var present := GetFromTid(tid);
      if present != null {
        return false;
      }
      var item := new TransactionItem(tid, uid);
      ok := item.SetState(New);
      var count := NumberOfTransactionsForUid(uid);
      if count > limit {
        return false;
      }
      item.commitTimer := true;
      items := items + [item];
      assert Contents() == old(Contents()) + [item.View()];
    }

    method SetBackground(tid: string, background: bool) returns (ok: bool)
      requires Valid()
      modifies items
      ensures Contents() == Scheduler.SetBackground(old(Contents()), tid, background)
      ensures ok <==> Listed(old(Contents()), tid) && Get(old(Contents()), tid).state != Finished
    {
      var item := GetFromTid(tid);
      if item == null || item.state == Finished {
        return false;
      }
      item.background := background;
      assert Contents() == old(Contents())[Find(old(Contents()), tid) := item.View()];
      return true;
    }

    /** The transaction waits for the user to authenticate; a refusal is ignored. */
    method ObtainAuthorization(tid: string)
      requires Valid()
      modifies items
      ensures Contents() == Authorize(old(Contents()), tid)
    {
      var item := GetFromTid(tid);
      if item != null {
        var _ := item.SetState(WaitingForAuth);
        assert Contents() == old(Contents())[Find(old(Contents()), tid) := item.View()];
      }
    }

    method RunItem(item: TransactionItem, ghost i: nat)
      requires Valid() && i < |items| && items[i] == item
      modifies item
      ensures Contents() == Scheduler.RunItem(old(Contents()), i)
    {
      var _ := item.SetState(Running);
      item.idle := true;
      assert Contents() == old(Contents())[i := item.View()];
    }

    method RunIdleCb(tid: string)
      requires Valid()
      modifies items
      ensures Contents() == RunIdle(old(Contents()), tid)
    {
      var item := GetFromTid(tid);
      if item != null && item.idle {
        item.idle := false;
        assert Contents() == old(Contents())[Find(old(Contents()), tid) := item.View()];
      }
    }

    method RemoveInternal(item: TransactionItem, ghost i: nat)
      requires Valid() && i < |items| && items[i] == item
      modifies this
      ensures Valid() && items == old(items)[..i] + old(items)[i + 1..]
      ensures Contents() == RemoveAt(old(Contents()), i)
    {
      var k := 0;
      while items[k] != item
        invariant 0 <= k <= i
        decreases |items| - k
      {
        k := k + 1;
      }
      items := items[..k] + items[k + 1..];
    }

    method Remove(tid: string) returns (ok: bool)
      requires Valid()
      modifies this, items
      ensures Valid() && Contents() == Scheduler.Remove(old(Contents()), tid)
      ensures ok <==> |items| < |old(items)|
      ensures forall item :: item in items ==> item in old(items)
      ensures !ok ==> items == old(items)
    {
      ghost var q := Contents();
      var item := GetFromTid(tid);
      if item == null || item.state == Finished {
        return false;
      }
      ghost var i := Find(q, tid);
      item.removeTimer := false;
      assert Contents() == q[i := item.View()];
      if item.state == Running {
        if !item.idle {
          return false;
        }
        item.idle := false;
        assert Contents() == q[i := item.View()];
      }
      RemoveInternal(item, i);
      assert q[i := item.View()][..i] == q[..i] && q[i := item.View()][i + 1..] == q[i + 1..];
      return true;
    }

    method RemoveItemCb(tid: string)
      requires Valid()
      modifies this
      ensures Valid() && Contents() == RemoveTimeout(old(Contents()), tid)
    {
      var item := GetFromTid(tid);
      if item != null && item.removeTimer {
        RemoveInternal(item, Find(Contents(), tid));
      }
    }

    method NoCommitCb(tid: string)
      requires Valid()
      modifies this
      ensures Valid() && Contents() == CommitTimeout(old(Contents()), tid)
    {
      var item := GetFromTid(tid);
      if item != null && item.commitTimer {
        RemoveInternal(item, Find(Contents(), tid));
      }
    }

    /** Clears the commit timer and moves the item to finished. */
    method MarkFinished(item: TransactionItem, ghost i: nat) returns (ok: bool)
      requires Valid() && i < |items| && items[i] == item
      modifies item
      ensures ok == Scheduler.SetState(old(item.state), Finished).1
      ensures var used := old(item.View()).(commitTimer := false);
              Contents() == old(Contents())[i := if ok then used.(state := Finished, removeTimer := true) else used]
    {
      if item.commitTimer {
        item.commitTimer := false;
      }
      ok := item.SetState(Finished);
      if ok {
        item.removeTimer := true;
      }
      assert Contents() == old(Contents())[i := item.View()];
    }

    method RunNext()
      requires Valid()
      modifies items
      ensures Contents() == StartNext(old(Contents()))
    {
      var next := GetNextItem();
      if next != null {
        RunItem(next, NextItem(Contents()));
      }
    }

    method TransactionFinishedCb(tid: string)
      requires Valid()
      modifies items
      ensures Contents() == Finish(old(Contents()), tid)
    {
      var item := GetFromTid(tid);
      if item == null || item.state == Finished {
        return;
      }
      FinishShape(Contents(), tid);
      var ok := MarkFinished(item, Find(Contents(), tid));
      if !ok {
        return;
      }
      RunNext();
    }

    /** Returns whether the backend was asked to cancel, which happens only once the transaction
        runs. */
    method CancelBg(item: TransactionItem, supported: bool, ghost i: nat) returns (asked: bool)
      requires Valid() && i < |items| && items[i] == item && WellFormed(Contents())
      modifies this, items
      ensures Valid() && items == old(items)
      ensures Contents() == if supported then Run(old(Contents()), CancelEvents(old(Contents()), item.tid))
                                         else old(Contents())
      ensures asked <==> supported && Rank(old(item.state)) >= Rank(Running)
      ensures asked ==> Contents() == old(Contents())
    {
      if !supported {
        return false;
      }
      FindAt(Contents(), i);
      if Rank(item.state) <= Rank(Ready) {
        CancelOne(Contents(), i);
        GetAfterFinish(Contents(), FinishSignalled(item.tid), item.tid);
        TransactionFinishedCb(item.tid);
        var _ := Remove(item.tid);
        return false;
      }
      return true;
    }

    /** Marks the transaction committed, which makes it ready, and stops its commit timer. */
    method MarkCommitted(item: TransactionItem, ghost i: nat) returns (ok: bool)
      requires Valid() && i < |items| && items[i] == item
      modifies item
      ensures ok == Scheduler.SetState(old(item.state), Committed).1
      ensures var q := old(Contents());
              var state := Scheduler.SetState(q[i].state, Committed).0;
              Contents() == if ok then q[i := q[i].(state := state, commitTimer := false)] else q
    {
      ok := item.SetState(Committed);
      if ok && item.commitTimer {
        item.commitTimer := false;
      }
      assert Contents() == old(Contents())[i := item.View()];
    }

    /** Starts a newly committed transaction when none runs; otherwise a foreground one may ask a
        running background one to give way. */
    method StartOrPreempt(item: TransactionItem, preempt: bool, supported: bool, ghost i: nat)
      returns (preempted: TransactionItem?)
      requires Valid() && WellFormed(Contents()) && i < |items| && items[i] == item
      modifies this, items
      ensures Valid() && items == old(items)
      ensures var q := old(Contents());
              Contents() == if ActiveItem(q, 0) == |q| then Scheduler.RunItem(q, i) else q
      ensures var q := old(Contents());
              var a := ActiveItem(q, 0);
              preempted == if a < |q| && preempt && supported && !q[i].background && q[a].background
                           then items[a] else null
    {
      preempted := null;
      var active := GetActiveTransaction();
      if active == null {
        RunItem(item, i);
      } else if preempt && !item.background && active.background {
        ghost var a := ActiveItem(Contents(), 0);
        FindAt(Contents(), a);
        var asked := CancelBg(active, supported, a);
        preempted := if asked then active else null;
      }
    }

    /** `preempt` is the configuration switch read before a running background transaction is
        cancelled in favour of a new foreground one; `preempted` is that transaction. */
    method Commit(tid: string, preempt: bool, supported: bool) returns (ok: bool, preempted: TransactionItem?)
      requires Valid() && WellFormed(Contents())
      modifies this, items
      ensures Valid() && items == old(items)
      ensures Contents() == Scheduler.Commit(old(Contents()), tid)
      ensures ok <==> CommitAccepted(old(Contents()), tid)
      ensures var q := old(Contents());
              var a := ActiveItem(q, 0);
              preempted == if ok && a < |q| && preempt && supported && !Get(q, tid).background && q[a].background
                           then items[a] else null
    {
      preempted := null;
      ghost var q := Contents();
      ghost var i := Find(q, tid);
      var item := GetFromTid(tid);
      if item == null || item.state == Committed {
        return false, null;
      }
      ok := MarkCommitted(item, i);
      if ok {
        CommitShape(q, tid);
        ghost var marked := Contents();
        UpdateWellFormed(q, i, marked[i]);
        ActiveAfterCommit(q, i, marked[i]);
        preempted := StartOrPreempt(item, preempt, supported, i);
      }
    }

    /** Applies the client's background hint, when it gave one. */
    method ApplyHint(tid: string, hint: Hint)
      requires Valid() && WellFormed(Contents())
      modifies items
      ensures Contents() == Run(old(Contents()), HintEvents(tid, hint)) && WellFormed(Contents())
    {
      if hint != HintUnset {
        StepWellFormed(Contents(), BackgroundSet(tid, hint == HintTrue));
        var _ := SetBackground(tid, hint == HintTrue);
      }
    }

    /** The transaction's own commit: background hint, list commit, and release on failure. */
    method TransactionCommit(tid: string, hint: Hint, preempt: bool, supported: bool) returns (ok: bool)
      requires Valid() && WellFormed(Contents())
      modifies this, items
      ensures Valid() && Contents() == Run(old(Contents()), ClientCommitEvents(old(Contents()), tid, hint))
      ensures ok <==> ClientCommitAccepted(old(Contents()), tid, hint)
      ensures forall item :: item in items ==> item in old(items)
    {
      ClientCommitIs(Contents(), tid, hint);
      ApplyHint(tid, hint);
      var preempted;
      ok, preempted := Commit(tid, preempt, supported);
      if !ok {
        var _ := Remove(tid);
      }
    }

    /** A commit whose failure is answered by releasing the transaction, which it had done itself. */
    method CommitOrRelease(tid: string, hint: Hint, preempt: bool, supported: bool)
      requires Valid() && WellFormed(Contents())
      modifies this, items
      ensures Valid()
      ensures var r := Run(old(Contents()), ClientCommitEvents(old(Contents()), tid, hint));
              Contents() == if ClientCommitAccepted(old(Contents()), tid, hint) then r else Scheduler.Remove(r, tid)
    {
      ghost var before := items;
      var ok := TransactionCommit(tid, hint, preempt, supported);
      if !ok {
        forall k | 0 <= k < |items| ensures exists j :: 0 <= j < |before| && before[j] == items[k] {
          assert items[k] in before;
        }
        var _ := Remove(tid);
      }
    }

    method AuthorizationFinishedCb(tid: string, authorized: bool, hint: Hint, preempt: bool, supported: bool)
      requires Valid() && WellFormed(Contents())
      modifies this, items
      ensures Valid()
      ensures Contents() == Run(old(Contents()), AuthorizationEvents(old(Contents()), tid, authorized, hint))
    {
      AuthorizationIs(Contents(), tid, authorized, hint);
      if !authorized {
        TransactionFinishedCb(tid);
      } else {
        CommitOrRelease(tid, hint, preempt, supported);
      }
    }

    /** The first loop of cancel_background. */
    method CancelPendingItems(supported: bool)
      requires Valid() && WellFormed(Contents())
      modifies this, items
      ensures Valid() && items == old(items) && WellFormed(Contents())
      ensures Contents() == if supported then CancelPending(old(Contents()), 0) else old(Contents())
      ensures supported ==> StartedUpTo(Contents(), |items|)
    {
      ghost var q := Contents();
      var i := 0;
      while i < |items|
        invariant i <= |items| && items == old(items) && Valid() && WellFormed(Contents())
        invariant supported ==> StartedUpTo(Contents(), i)
        invariant if supported then CancelPending(Contents(), i) == CancelPending(q, 0) else Contents() == q
      {
        ghost var now := Contents();
        if Rank(items[i].state) < Rank(Running) {
          if supported {
            CancelPendingAtShape(now, i);
          }
          var _ := CancelBg(items[i], supported, i);
          assert supported ==> Contents() == CancelPendingAt(now, i);
        }
        i := i + 1;
      }
    }

    /** One turn of the second loop. */
    method CancelRunningItem(item: TransactionItem, supported: bool, ghost i: nat) returns (asked: seq<string>)
      requires Valid() && WellFormed(Contents()) && i < |items| && items[i] == item
      modifies this, items
      ensures Valid() && items == old(items) && Contents() == old(Contents())
      ensures var q := Contents();
              asked == if supported && q[i].state == Running && q[i].background then [q[i].tid] else []
    {
      asked := [];
      if item.state == Running && item.background {
        FindAt(Contents(), i);
        var sent := CancelBg(item, supported, i);
        if sent {
          asked := [item.tid];
        }
      }
    }

    /** The second loop of cancel_background. */
    method CancelRunningItems(supported: bool) returns (asked: seq<string>)
      requires Valid() && WellFormed(Contents())
      modifies this, items
      ensures Valid() && items == old(items) && Contents() == old(Contents())
      ensures asked == if supported then RunningBackground(Contents(), 0) else []
    {
      asked := [];
      ghost var q := Contents();
      var i := 0;
      while i < |items|
        invariant i <= |items| && items == old(items) && Valid() && Contents() == q
        invariant if supported then asked + RunningBackground(q, i) == RunningBackground(q, 0) else asked == []
      {
        var sent := CancelRunningItem(items[i], supported, i);
        if supported { RunningBackgroundStep(q, i, asked, sent); }
        asked := asked + sent;
        i := i + 1;
      }
    }

    /** Returns the transactions the backend was asked to cancel, which include any background
        one that the first loop itself started. */
    method CancelBackground(supported: bool) returns (asked: seq<string>)
      requires Valid() && WellFormed(Contents())
      modifies this, items
      ensures Valid() && items == old(items)
      ensures Contents() == if supported then CancelPending(old(Contents()), 0) else old(Contents())
      ensures supported ==> StartedUpTo(Contents(), |items|)
      ensures asked == if supported then RunningBackground(Contents(), 0) else []
    {
      CancelPendingItems(supported);
      asked := CancelRunningItems(supported);
    }

    method CheckConsistent() returns (ok: bool)
      requires Valid()
      ensures ok <==> IsConsistent(Contents())
    {
      ghost var q := Contents();
      if |items| == 0 {
        return true;
      }
      var running, waiting := 0, 0;
      var i := 0;
      while i < |items|
        invariant i <= |items|
        invariant running + CountState(q[i..], Running) == CountState(q, Running)
        invariant waiting + CountState(q[i..], Committed) + CountState(q[i..], Ready)
               == CountState(q, Committed) + CountState(q, Ready)
      {
        assert q[i..][1..] == q[i + 1..];
        if items[i].state == Running { running := running + 1; }
        if items[i].state == Committed { waiting := waiting + 1; }
        if items[i].state == Ready { waiting := waiting + 1; }
        i := i + 1;
      }
      ok := running <= 1 && waiting != |items|;
    }
  }

  lemma {:induction false} ClientCommitIs(q: Queue, tid: string, hint: Hint)
    ensures Run(q, ClientCommitEvents(q, tid, hint))
         == var r := Scheduler.Commit(Run(q, HintEvents(tid, hint)), tid);
            if ClientCommitAccepted(q, tid, hint) then r else Scheduler.Remove(r, tid)
  {
    var q1 := Run(q, HintEvents(tid, hint));
    if ClientCommitAccepted(q, tid, hint) {
      RunAppend(q, HintEvents(tid, hint), [CommitRequested(tid)]);
      RunOne(q1, CommitRequested(tid));
    } else {
      RunAppend(q, HintEvents(tid, hint), [CommitRequested(tid), Released(tid)]);
      RunTwo(q1, CommitRequested(tid), Released(tid));
    }
  }

  lemma {:induction false} AuthorizationIs(q: Queue, tid: string, authorized: bool, hint: Hint)
    ensures Run(q, AuthorizationEvents(q, tid, authorized, hint))
         == if !authorized then Finish(q, tid)
            else
              var r := Run(q, ClientCommitEvents(q, tid, hint));
              if ClientCommitAccepted(q, tid, hint) then r else Scheduler.Remove(r, tid)
  {
    var events, all := ClientCommitEvents(q, tid, hint), AuthorizationEvents(q, tid, authorized, hint);
    if !authorized {
      assert all == [FinishSignalled(tid)];
      RunOne(q, FinishSignalled(tid));
    } else if ClientCommitAccepted(q, tid, hint) {
      assert all == events + [] == events;
    } else {
      assert all == events + [Released(tid)];
      RunAppend(q, events, [Released(tid)]);
      RunOne(Run(q, events), Released(tid));
    }
  }

  /** The second loop goes on by one turn. */
  lemma {:induction false} RunningBackgroundStep(q: Queue, i: nat, asked: seq<string>, sent: seq<string>)
    requires i < |q| && sent == if q[i].state == Running && q[i].background then [q[i].tid] else []
    ensures asked + RunningBackground(q, i) == (asked + sent) + RunningBackground(q, i + 1)
  {
  }

  lemma {:induction false} ActiveAfterCommit(q: Queue, i: nat, x: Item)
    requires i < |q| && q[i].state != Running && x.state != Running
    ensures ActiveItem(q[i := x], 0) == ActiveItem(q, 0)
  {
    var a, b := ActiveItem(q[i := x], 0), ActiveItem(q, 0);
    assert forall j :: 0 <= j < |q| ==> (q[i := x][j].state == Running <==> q[j].state == Running);
  }
}
