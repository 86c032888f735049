/** What one event does to the cached update list and to what a client is told, case by case. */
module CacheRules {
  import opened Packages
  import opened BackendModel
  import opened UpdateCache

  /** The end of a transaction is a success for the cache only if nothing else is still required. */
  predicate Succeeds(j: Job, exit: Exit) { exit == Success && !j.keyRequired && !j.eulaRequired && !j.mediaRequired }

  /** A successful change empties the cache, a successful list fills it, and every other end leaves it alone. */
  lemma {:induction false} FinishExactly(d: Daemon, tid: nat, exit: Exit, developer: bool, useCache: bool)
    requires Connected(d, tid)
    ensures var j, r := d.jobs[tid], Step(d, FinishedEvent(tid, exit), developer);
            TryEmitCache(r.cache, useCache)
            == if !Succeeds(j, exit) then TryEmitCache(d.cache, useCache)
               else if j.role in CHANGING then None
               else if j.role != GetUpdates then TryEmitCache(d.cache, useCache)
               else if useCache then Some(Results(j.results.packages, j.results.messages, Success))
               else None
  {
  }

  /** What the client is told: a signature first, then a licence, then a medium that is still missing. */
  lemma {:induction false} ToldExactly(j: Job, exit: Exit)
    ensures FinalExit(j, exit) == KeyRequired <==>
              j.keyRequired || (exit == KeyRequired && !j.eulaRequired && !j.mediaRequired)
    ensures !j.keyRequired && j.eulaRequired ==> FinalExit(j, exit) == EulaRequired
    ensures !j.keyRequired && !j.eulaRequired && j.mediaRequired ==> FinalExit(j, exit) == MediaChangeRequired
    ensures FinalExit(j, exit) == Success <==> Succeeds(j, exit)
  {
  }

  /** A requirement is remembered until the end. */
  lemma {:induction false} RequirementExactly(j: Job, what: Requirement, exit: Exit)
    ensures !Succeeds(RequireFlag(j, what), exit)
    ensures FinalExit(RequireFlag(NewJob(j.role, j.filters), what), exit)
         == match what case NeedKey => KeyRequired case NeedEula => EulaRequired case NeedMedia => MediaChangeRequired
  {
  }

  /** A client sees every package but those that contradict its filters, and those that are said to be
      installed by a transaction that installs. */
  lemma {:induction false} PackageSeenExactly(j: Job, item: Package, developer: bool)
    requires !j.finished
    ensures var r := PackageCb(j, item, developer);
            var refused := || (item.info == Installed && j.role in {UpdateSystem, InstallPackages, UpdatePackages})
                           || (item.info == Installed && j.filters.notInstalled)
                           || (item.info == Available && j.filters.installed);
            if refused then r == MessageCb(j, BackendError, developer)
            else
              && r.emitted == j.emitted + [item] && r.notices == j.notices
              && r.results.packages == j.results.packages + (if item.info == InfoFinished then [] else [item])
  {
  }

  /** A client sees every message but those for developers. */
  lemma {:induction false} MessageSeenExactly(j: Job, kind: MessageKind, developer: bool)
    ensures var r, shown := MessageCb(j, kind, developer), developer || kind !in {BackendError, DaemonError};
            && r.notices == j.notices + (if shown then [kind] else [])
            && r.results.messages == j.results.messages + (if shown then [kind] else [])
            && r.emitted == j.emitted && r.results.packages == j.results.packages
  {
    assert j.notices + [] == j.notices && j.results.messages + [] == j.results.messages;
  }

  /** Afterwards exactly one timer is pending, and it is the urgent one unless every report so far was of a
      resumed system. */
  lemma {:induction false} ReportExactly(d: Daemon, resume: bool, developer: bool)
    requires !(d.priorityTimer && d.normalTimer)
    ensures var r := Step(d, StateHasChanged(resume), developer);
            && r.priorityTimer == (d.priorityTimer || !resume) && r.normalTimer == !r.priorityTimer
            && r.cache == d.cache && r.log == d.log && r.jobs == d.jobs
  {
  }
}
