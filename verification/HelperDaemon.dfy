/** A helper at work for the transaction that has the backend: what the helper does reaches the list. */
module HelperDaemon {
  import opened Scheduler
  import opened SchedulerProofs
  import opened SchedulerProgress
  import opened BackendProofs
  import opened Daemon
  import B = BackendModel
  import H = HelperModel
  import HelperProofs

  /** The daemon after the backend went on to `b` within its epoch; a finish signal on the way is
      delivered. */
  function Follow(d: State, b: B.Backend): State {
    Deliver(d, b, FinishesIn(b.trace) > FinishesIn(d.backend.trace))
  }

  function FollowAll(voc: H.Vocabulary, d: State, h: H.Helper, events: seq<H.Event>): State
    decreases |events|
  {
    if events == [] then d
    else
      var h1 := H.Step(voc, h, events[0]);
      FollowAll(voc, Follow(d, h1.backend), h1, events[1..])
  }

  /** The transaction still has the backend, or its finish has been delivered. */
  ghost predicate Handled(start: State, tid: string, d: State) {
    && Owned(d)
    && (d.connected == [tid] ==> d.queue == start.queue)
    && (d.connected != [tid] ==> d.connected == [] && d.queue == Finish(start.queue, tid))
  }

  lemma {:induction false} FollowHandled(start: State, tid: string, d: State, b: B.Backend)
    requires Handled(start, tid, d) && Inv(b)
    ensures Handled(start, tid, Follow(d, b)) && Follow(d, b).backend == b
    ensures Follow(d, b).connected == [tid] ==> FinishesIn(b.trace) == 0
  {
    DeliverKeepsOwner(d, b, FinishesIn(b.trace) > FinishesIn(d.backend.trace));
    if d.connected == [tid] { DeliverToOwner(d, tid); }
  }

  lemma {:induction false} FollowAllHandled(
      voc: H.Vocabulary, start: State, tid: string, d: State, h: H.Helper, events: seq<H.Event>)
    requires Handled(start, tid, d) && d.backend == h.backend
    requires HelperProofs.Harmless(voc) && HelperProofs.Contained(h) && !h.child.sendingExit
    requires HelperProofs.Undisturbed(events)
    ensures var r := FollowAll(voc, d, h, events);
            Handled(start, tid, r) && r.backend == H.Run(voc, h, events).backend
    decreases |events|
  {
    if events != [] {
      assert events[0] in events;
      HelperProofs.StepContained(voc, h, events[0]);
      var h1 := H.Step(voc, h, events[0]);
      FollowHandled(start, tid, d, h1.backend);
      FollowAllHandled(voc, start, tid, Follow(d, h1.backend), h1, events[1..]);
    }
  }

  /** The running transaction has a task with a helper. However the helper dies, and whatever happens to
      it before: with the grace timer the transaction has finished and a waiting one is started. */
  lemma {:induction false} DeathEndsOwner(
      voc: H.Vocabulary, d: State, tid: string, h: H.Helper, events: seq<H.Event>)
    requires Owned(d) && d.connected == [tid] && d.backend == h.backend
    requires HelperProofs.Harmless(voc) && HelperProofs.FreshTask(h) && HelperProofs.Undisturbed(events)
    requires !H.Run(voc, h, events).child.alive
    ensures var r := FollowAll(voc, d, h, events);
            var s := Follow(r, B.FinishTimeout(r.backend));
            && s.queue == Finish(d.queue, tid) && s.connected == []
            && Listed(s.queue, tid) && Get(s.queue, tid).state == Finished
            && (RunningCount(s.queue) == 1 <==> SomeOtherReady(d.queue, Find(d.queue, tid)))
  {
    var r := FollowAll(voc, d, h, events);
    FollowAllHandled(voc, d, tid, d, h, events);
    HelperProofs.RunContained(voc, h, events);
    FinishTimeoutKeepsInv(r.backend);
    FinishedDelayEffect(r.backend);
    FollowHandled(d, tid, r, B.FinishTimeout(r.backend));
    FinishReleases(d.queue, tid);
  }
}
