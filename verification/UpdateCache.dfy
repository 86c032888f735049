/**
 The cached update list: what fills it, what empties it, and what a replay of it tells a client.
 The functions describe one call each; the classes in CacheObjects.dfy are proved against them.
 */
module UpdateCache {
  import opened Packages
  import opened BackendModel

  datatype Results = Results(packages: seq<Package>, messages: seq<MessageKind>, exit: Exit)

  datatype Filters = Filters(installed: bool, notInstalled: bool)

  /** A transaction that runs in the backend. `emitted` and `notices` are what its client saw. */
  datatype Job = Job(
    role: Role,
    filters: Filters,
    finished: bool,
    keyRequired: bool,
    eulaRequired: bool,
    mediaRequired: bool,
    results: Results,
    emitted: seq<Package>,
    notices: seq<MessageKind>)

  function NewJob(role: Role, filters: Filters): Job {
    Job(role, filters, false, false, false, false, Results([], [], ExitUnknown), [], [])
  }

  /** An installed package may not be reported before it is worked on, and filters are respected. */
  predicate Accepts(role: Role, filters: Filters, info: Info) {
    && !((role == UpdateSystem || role == InstallPackages || role == UpdatePackages) && info == Installed)
    && !(filters.notInstalled && info == Installed)
    && !(filters.installed && info == Available)
  }

  function MessageCb(j: Job, kind: MessageKind, developer: bool): Job {
    if !developer && (kind == BackendError || kind == DaemonError) then j
    else j.(results := j.results.(messages := j.results.messages + [kind]), notices := j.notices + [kind])
  }

  /** A package that is refused comes back as a message from the backend. */
  function PackageCb(j: Job, item: Package, developer: bool): Job {
    if j.finished then j
    else if !Accepts(j.role, j.filters, item.info) then MessageCb(j, BackendError, developer)
    else
      var kept := if item.info != InfoFinished then [item] else [];
      j.(results := j.results.(packages := j.results.packages + kept), emitted := j.emitted + [item])
  }

  predicate Spoiling(role: Role) {
    role == UpdateSystem || role == UpdatePackages || role == RemovePackages ||
    role == RepoEnable || role == RepoSetData || role == RefreshCache
  }

  /** The exit that the client is told. */
  function FinalExit(j: Job, exit: Exit): Exit {
    if j.keyRequired then KeyRequired
    else if j.eulaRequired then EulaRequired
    else if j.mediaRequired then MediaChangeRequired
    else exit
  }

  function FinishedCb(j: Job, exit: Exit): Job {
    if j.finished then j else j.(finished := true, results := j.results.(exit := exit))
  }

  function SetResults(cache: Option<Results>, role: Role, results: Results): Option<Results> {
    if role != GetUpdates then cache else Some(results)
  }

  function CacheAfterFinish(cache: Option<Results>, j: Job, exit: Exit): Option<Results> {
    if j.finished || FinalExit(j, exit) != Success then cache
    else if Spoiling(j.role) then None
    else SetResults(cache, j.role, FinishedCb(j, exit).results)
  }

  /** What a request for updates is answered from the cache, if it is. */
  function TryEmitCache(cache: Option<Results>, useCache: bool): Option<Results> {
    if useCache && cache.Some? && cache.value.exit == Success then cache else None
  }

  // ----- the daemon's events -----

  /** What happened, told without reference to the cache. */
  datatype Fact =
    | Ended(role: Role, exit: Exit, emitted: seq<Package>, notices: seq<MessageKind>)
    | RefreshRequested
    | StateTimerFired(online: bool)

  datatype Daemon = Daemon(
    cache: Option<Results>,
    jobs: map<nat, Job>,
    priorityTimer: bool,
    normalTimer: bool,
    log: seq<Fact>)

  datatype Requirement = NeedKey | NeedEula | NeedMedia

  datatype Event =
    | Start(tid: nat, role: Role, filters: Filters)
    | PackageEvent(tid: nat, item: Package)
    | MessageEvent(tid: nat, kind: MessageKind)
    | Require(tid: nat, what: Requirement)
    | FinishedEvent(tid: nat, exit: Exit)
    | RefreshRequest(supported: bool)
    | StateHasChanged(resume: bool)
    | StateTimer(priority: bool, online: bool)

  function RequireFlag(j: Job, what: Requirement): Job {
    match what
    case NeedKey => j.(keyRequired := true)
    case NeedEula => j.(eulaRequired := true)
    case NeedMedia => j.(mediaRequired := true)
  }

  function Finish(d: Daemon, tid: nat, exit: Exit): Daemon
    requires tid in d.jobs
  {
    var j := d.jobs[tid];
    if j.finished then d
    else
      d.(jobs := d.jobs[tid := FinishedCb(j, exit)], cache := CacheAfterFinish(d.cache, j, exit),
         log := d.log + [Ended(j.role, FinalExit(j, exit), j.emitted, j.notices)])
  }

  /** A pending priority timer absorbs every request; a normal one gives way to a priority one. */
  function ScheduleStateChange(d: Daemon, resume: bool): Daemon {
    if d.priorityTimer || (resume && d.normalTimer) then d
    else if resume then d.(normalTimer := true)
    else d.(normalTimer := false, priorityTimer := true)
  }

  /** Without a network the timer waits for another turn. */
  function StateChanged(d: Daemon, online: bool): Daemon {
    var d1 := d.(log := d.log + [StateTimerFired(online)]);
    if !online then d1 else d1.(cache := None, priorityTimer := false, normalTimer := false)
  }

  /** Signals reach a transaction until it has finished. */
  predicate Connected(d: Daemon, tid: nat) { tid in d.jobs && !d.jobs[tid].finished }

  function Step(d: Daemon, e: Event, developer: bool): Daemon {
    match e
    case Start(tid, role, filters) => if tid in d.jobs then d else d.(jobs := d.jobs[tid := NewJob(role, filters)])
    case PackageEvent(tid, item) =>
      if Connected(d, tid) then d.(jobs := d.jobs[tid := PackageCb(d.jobs[tid], item, developer)]) else d
    case MessageEvent(tid, kind) =>
      if Connected(d, tid) then d.(jobs := d.jobs[tid := MessageCb(d.jobs[tid], kind, developer)]) else d
    case Require(tid, what) =>
      if Connected(d, tid) then d.(jobs := d.jobs[tid := RequireFlag(d.jobs[tid], what)]) else d
    case FinishedEvent(tid, exit) => if Connected(d, tid) then Finish(d, tid, exit) else d
    case RefreshRequest(supported) => if supported then d.(cache := None, log := d.log + [RefreshRequested]) else d
    case StateHasChanged(resume) => ScheduleStateChange(d, resume)
    case StateTimer(priority, online) =>
      if (if priority then d.priorityTimer else d.normalTimer) then StateChanged(d, online) else d
  }

  function Run(d: Daemon, events: seq<Event>, developer: bool): Daemon
    decreases |events|
  {
    if events == [] then d else Run(Step(d, events[0], developer), events[1..], developer)
  }

  // ----- the cache agrees with what happened -----

  predicate Fills(f: Fact) { f.Ended? && f.role == GetUpdates && f.exit == Success }

  /** The roles after which the list of updates may be another. */
  const CHANGING: set<Role> :=
    {UpdateSystem, UpdatePackages, RemovePackages, RepoEnable, RepoSetData, BackendModel.RefreshCache}

  predicate Spoils(f: Fact) {
    f == RefreshRequested || f == StateTimerFired(true) || (f.Ended? && f.role in CHANGING && f.exit == Success)
  }

  /** The last fact that concerns the cache is a successful update list. */
  predicate Latest(log: seq<Fact>, k: int) {
    0 <= k < |log| && Fills(log[k]) && forall j :: k < j < |log| ==> !Fills(log[j]) && !Spoils(log[j])
  }

  /** The results are what the client of that run saw, but for the finish marks. */
  predicate Tells(r: Results, f: Fact)
    requires f.Ended?
  {
    r.packages == Meaningful(f.emitted) && r.messages == f.notices && r.exit == Success
  }

  predicate JobInv(j: Job) {
    j.results.packages == Meaningful(j.emitted) && j.results.messages == j.notices
  }

  ghost predicate CacheInv(cache: Option<Results>, log: seq<Fact>) {
    && (cache.Some? ==> exists k :: Latest(log, k))
    && (forall k :: Latest(log, k) ==> cache.Some? && Tells(cache.value, log[k]))
  }

  ghost predicate Inv(d: Daemon) {
    && (forall tid :: tid in d.jobs ==> JobInv(d.jobs[tid]))
    && CacheInv(d.cache, d.log)
    && !(d.priorityTimer && d.normalTimer)
  }

  lemma {:induction false} LatestAfter(log: seq<Fact>, f: Fact, k: int)
    ensures Latest(log + [f], k) <==>
              if k == |log| then Fills(f) else Latest(log, k) && !Fills(f) && !Spoils(f)
  {
    var all := log + [f];
    if 0 <= k < |log| {
      assert all[k] == log[k];
      assert all[|log|] == f;
      if Latest(all, k) { assert forall j :: k < j < |log| ==> all[j] == log[j]; }
    }
  }

  lemma {:induction false} CacheStep(cache: Option<Results>, log: seq<Fact>, f: Fact, after: Option<Results>)
    requires CacheInv(cache, log)
    requires Fills(f) ==> after.Some? && Tells(after.value, f)
    requires Spoils(f) ==> after == None
    requires !Fills(f) && !Spoils(f) ==> after == cache
    ensures CacheInv(after, log + [f])
  {
    forall k | Latest(log + [f], k)
      ensures after.Some? && Tells(after.value, (log + [f])[k])
    {
      LatestAfter(log, f, k);
    }
    if after.Some? {
      if Fills(f) {
        LatestAfter(log, f, |log|);
        assert Latest(log + [f], |log|);
      } else {
        var k :| Latest(log, k);
        LatestAfter(log, f, k);
        assert Latest(log + [f], k);
      }
    }
  }

  lemma {:induction false} JobStep(j: Job, item: Package, kind: MessageKind, developer: bool)
    requires JobInv(j)
    ensures JobInv(MessageCb(j, kind, developer)) && JobInv(PackageCb(j, item, developer))
  {
    MeaningfulStep(j.emitted, item);
  }

  lemma {:induction false} FinishKeepsInv(d: Daemon, tid: nat, exit: Exit)
    requires Inv(d) && tid in d.jobs
    ensures Inv(Finish(d, tid, exit))
  {
    var j := d.jobs[tid];
    if !j.finished {
      var f := Ended(j.role, FinalExit(j, exit), j.emitted, j.notices);
      assert JobInv(FinishedCb(j, exit));
      CacheStep(d.cache, d.log, f, CacheAfterFinish(d.cache, j, exit));
    }
  }

  lemma {:induction false} JobKeepsInv(d: Daemon, tid: nat, j: Job)
    requires Inv(d) && JobInv(j)
    ensures Inv(d.(jobs := d.jobs[tid := j]))
  {
  }

  lemma {:induction false} StateChangedKeepsInv(d: Daemon, online: bool)
    requires Inv(d)
    ensures Inv(StateChanged(d, online))
  {
    CacheStep(d.cache, d.log, StateTimerFired(online), if online then None else d.cache);
  }

  lemma {:induction false} StepKeepsInv(d: Daemon, e: Event, developer: bool)
    requires Inv(d)
    ensures Inv(Step(d, e, developer))
  {
    match e
    case Start(tid, role, filters) => JobKeepsInv(d, tid, NewJob(role, filters));
    case PackageEvent(tid, item) =>
      if tid in d.jobs {
        JobStep(d.jobs[tid], item, BackendError, developer);
        JobKeepsInv(d, tid, PackageCb(d.jobs[tid], item, developer));
      }
    case MessageEvent(tid, kind) =>
      if tid in d.jobs {
        JobStep(d.jobs[tid], Package(InfoFinished, "", None), kind, developer);
        JobKeepsInv(d, tid, MessageCb(d.jobs[tid], kind, developer));
      }
    case Require(tid, what) => if tid in d.jobs { JobKeepsInv(d, tid, RequireFlag(d.jobs[tid], what)); }
    case FinishedEvent(tid, exit) => if tid in d.jobs { FinishKeepsInv(d, tid, exit); }
    case RefreshRequest(_) => CacheStep(d.cache, d.log, RefreshRequested, None);
    case StateHasChanged(_) =>
    case StateTimer(_, online) => StateChangedKeepsInv(d, online);
  }

  lemma {:induction false} RunKeepsInv(d: Daemon, events: seq<Event>, developer: bool)
    requires Inv(d)
    ensures Inv(Run(d, events, developer))
    decreases |events|
  {
    if events != [] {
      StepKeepsInv(d, events[0], developer);
      RunKeepsInv(Step(d, events[0], developer), events[1..], developer);
    }
  }

  /** Over every run, a request for updates is answered from the cache exactly when the last thing
      that concerned it was a successful update list, and the answer is what that run's client saw,
      but for the finish marks. The guard against a failed list is never needed. */
  lemma {:induction false} ReplayIsTheLatestRun(d: Daemon, events: seq<Event>, developer: bool, useCache: bool)
    requires Inv(d)
    ensures var r := Run(d, events, developer);
            var answer := TryEmitCache(r.cache, useCache);
            && (answer.Some? <==> useCache && exists k :: Latest(r.log, k))
            && (forall k :: Latest(r.log, k) && useCache ==> answer.Some? && Tells(answer.value, r.log[k]))
  {
    RunKeepsInv(d, events, developer);
    var r := Run(d, events, developer);
    if r.cache.Some? {
      var k :| Latest(r.log, k);
      assert Tells(r.cache.value, r.log[k]);
    }
  }

  predicate StatePending(d: Daemon) { d.priorityTimer || d.normalTimer }

  /** No state timer fires while the network is up. */
  predicate Offline(events: seq<Event>) { forall e :: e in events && e.StateTimer? ==> !e.online }

  lemma {:induction false} StatePends(d: Daemon, e: Event, developer: bool)
    requires StatePending(d) && (e.StateTimer? ==> !e.online)
    ensures StatePending(Step(d, e, developer)) && (d.priorityTimer ==> Step(d, e, developer).priorityTimer)
  {
  }

  lemma {:induction false} StatePendsOn(d: Daemon, events: seq<Event>, developer: bool)
    requires StatePending(d) && Offline(events)
    ensures StatePending(Run(d, events, developer)) && (d.priorityTimer ==> Run(d, events, developer).priorityTimer)
    decreases |events|
  {
    if events != [] {
      assert events[0] in events;
      StatePends(d, events[0], developer);
      StatePendsOn(Step(d, events[0], developer), events[1..], developer);
    }
  }

  /** After a report that the state has changed, whatever happens while the network is down, exactly one
      timer stays pending, the priority one unless the system only resumed; and the first time that it
      fires with the network up there is nothing left to replay, and no timer pending. */
  lemma {:induction false} StateChangeArrives(d: Daemon, resume: bool, events: seq<Event>, developer: bool)
    requires Inv(d) && Offline(events)
    ensures var r := Run(Step(d, StateHasChanged(resume), developer), events, developer);
            var s := Step(r, StateTimer(r.priorityTimer, true), developer);
            && r.priorityTimer != r.normalTimer && (!resume ==> r.priorityTimer)
            && !s.priorityTimer && !s.normalTimer
            && (forall useCache :: TryEmitCache(s.cache, useCache) == None) && !exists k :: Latest(s.log, k)
  {
    var d1 := Step(d, StateHasChanged(resume), developer);
    StepKeepsInv(d, StateHasChanged(resume), developer);
    StatePendsOn(d1, events, developer);
    RunKeepsInv(d1, events, developer);
    var r := Run(d1, events, developer);
    StepKeepsInv(r, StateTimer(r.priorityTimer, true), developer);
  }

  // ----- the filter is not part of the key -----

  /** What a run keeps of the packages that the backend reports. */
  function Kept(items: seq<Package>, role: Role, filters: Filters): seq<Package> {
    if items == [] then []
    else
      (if items[0].info != InfoFinished && Accepts(role, filters, items[0].info) then [items[0]] else [])
      + Kept(items[1..], role, filters)
  }

  function PackageCbs(j: Job, items: seq<Package>, developer: bool): Job
    decreases |items|
  {
    if items == [] then j else PackageCbs(PackageCb(j, items[0], developer), items[1..], developer)
  }

  lemma {:induction false} CallKeeps(j: Job, item: Package, developer: bool)
    requires !j.finished
    ensures var r := PackageCb(j, item, developer);
            && !r.finished && r.role == j.role && r.filters == j.filters
            && r.results.packages == j.results.packages
                                     + (if item.info != InfoFinished && Accepts(j.role, j.filters, item.info)
                                        then [item] else [])
  {
  }

  lemma {:induction false} RunKeeps(j: Job, items: seq<Package>, developer: bool)
    requires !j.finished
    ensures PackageCbs(j, items, developer).results.packages == j.results.packages + Kept(items, j.role, j.filters)
    decreases |items|
  {
    if items != [] {
      CallKeeps(j, items[0], developer);
      RunKeeps(PackageCb(j, items[0], developer), items[1..], developer);
    }
  }

  lemma {:induction false} InKept(items: seq<Package>, role: Role, filters: Filters, p: Package)
    ensures p in Kept(items, role, filters) <==>
              p in items && p.info != InfoFinished && Accepts(role, filters, p.info)
  {
    if items != [] {
      InKept(items[1..], role, filters, p);
      assert p in items <==> p == items[0] || p in items[1..];
    }
  }

  /** A list cached under one filter is right for a request with another exactly when both filters
      treat every reported package alike. */
  lemma {:induction false} OtherFilterExactly(items: seq<Package>, f: Filters, g: Filters)
    ensures Kept(items, GetUpdates, f) == Kept(items, GetUpdates, g) <==>
              forall p :: p in items && p.info != InfoFinished ==>
                (Accepts(GetUpdates, f, p.info) <==> Accepts(GetUpdates, g, p.info))
  {
    if Kept(items, GetUpdates, f) == Kept(items, GetUpdates, g) {
      forall p | p in items && p.info != InfoFinished
        ensures Accepts(GetUpdates, f, p.info) <==> Accepts(GetUpdates, g, p.info)
      {
        InKept(items, GetUpdates, f, p);
        InKept(items, GetUpdates, g, p);
      }
    } else {
      var i := Differ(items, f, g);
      assert items[i] in items;
    }
  }

  lemma {:induction false} Differ(items: seq<Package>, f: Filters, g: Filters) returns (i: nat)
    requires Kept(items, GetUpdates, f) != Kept(items, GetUpdates, g)
    ensures i < |items| && items[i].info != InfoFinished
    ensures Accepts(GetUpdates, f, items[i].info) != Accepts(GetUpdates, g, items[i].info)
  {
    if items[0].info != InfoFinished
       && Accepts(GetUpdates, f, items[0].info) != Accepts(GetUpdates, g, items[0].info) {
      i := 0;
    } else {
      var k := Differ(items[1..], f, g);
      i := k + 1;
    }
  }

  function PackageEvents(tid: nat, items: seq<Package>): seq<Event> {
    if items == [] then [] else [PackageEvent(tid, items[0])] + PackageEvents(tid, items[1..])
  }

  /** A complete run of a request for updates. */
  function UpdatesRun(tid: nat, filters: Filters, items: seq<Package>): seq<Event> {
    [Start(tid, GetUpdates, filters)] + (PackageEvents(tid, items) + [FinishedEvent(tid, Success)])
  }

  lemma {:induction false} RunPackages(d: Daemon, tid: nat, items: seq<Package>, last: Event, developer: bool)
    requires Connected(d, tid)
    ensures var j := PackageCbs(d.jobs[tid], items, developer);
            && !j.finished && j.role == d.jobs[tid].role && FinalExit(j, Success) == FinalExit(d.jobs[tid], Success)
            && Run(d, PackageEvents(tid, items) + [last], developer)
               == Step(d.(jobs := d.jobs[tid := j]), last, developer)
    decreases |items|
  {
    if items == [] {
      assert d.jobs[tid := d.jobs[tid]] == d.jobs;
      assert [] + [last] == [last] && [last][1..] == [];
    } else {
      var e := PackageEvent(tid, items[0]);
      var rest := PackageEvents(tid, items[1..]) + [last];
      assert PackageEvents(tid, items) + [last] == [e] + rest;
      assert ([e] + rest)[1..] == rest;
      CallKeeps(d.jobs[tid], items[0], developer);
      var d1 := Step(d, e, developer);
      RunPackages(d1, tid, items[1..], last, developer);
      var j := PackageCbs(d1.jobs[tid], items[1..], developer);
      assert d.jobs[tid := d1.jobs[tid]][tid := j] == d.jobs[tid := j];
    }
  }

  /** What the cache answers right after such a run. */
  function AnswerAfter(d: Daemon, tid: nat, filters: Filters, items: seq<Package>, developer: bool): Option<Results> {
    TryEmitCache(Run(d, UpdatesRun(tid, filters, items), developer).cache, true)
  }

  lemma {:induction false} AnswerIsKept(d: Daemon, tid: nat, filters: Filters, items: seq<Package>, developer: bool)
    requires tid !in d.jobs
    ensures var answer := AnswerAfter(d, tid, filters, items, developer);
            answer.Some? && answer.value.packages == Kept(items, GetUpdates, filters)
  {
    var first, rest := Start(tid, GetUpdates, filters), PackageEvents(tid, items) + [FinishedEvent(tid, Success)];
    assert ([first] + rest)[1..] == rest;
    var d1 := Step(d, first, developer);
    RunPackages(d1, tid, items, FinishedEvent(tid, Success), developer);
    RunKeeps(d1.jobs[tid], items, developer);
  }

  /** A replay after a run with one filter is what a run with another would have given, whatever the
      backend reports, exactly when the filters are the same. */
  lemma {:induction false} ReplayFitsExactly(d: Daemon, tid: nat, f: Filters, g: Filters, developer: bool)
    requires tid !in d.jobs
    ensures (forall items :: var answer := AnswerAfter(d, tid, f, items, developer);
                             answer.Some? && answer.value.packages == Kept(items, GetUpdates, g))
            <==> f == g
  {
    forall items ensures var answer := AnswerAfter(d, tid, f, items, developer);
                         answer.Some? && answer.value.packages == Kept(items, GetUpdates, f)
    {
      AnswerIsKept(d, tid, f, items, developer);
    }
    if f != g {
      var info := if f.notInstalled != g.notInstalled then Installed else Available;
      var items := [Package(info, "", None)];
      assert items[1..] == [];
      assert Kept(items, GetUpdates, f) != Kept(items, GetUpdates, g);
      var answer := AnswerAfter(d, tid, f, items, developer);
      assert answer.value.packages != Kept(items, GetUpdates, g);
    }
  }
}
