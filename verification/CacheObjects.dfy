/** The objects that share the update cache: the cache itself, a running transaction and the engine. */
module CacheObjects {
  import opened Packages
  import opened BackendModel
  import opened UpdateCache

  class Cache {
    var getUpdates: Option<Results>

    constructor ()
      ensures getUpdates == None
    {
      getUpdates := None;
    }

    /** Only update lists are cached. */
    method GetResults(role: Role) returns (results: Option<Results>)
      ensures results == if role == GetUpdates then getUpdates else None
    {
      if role != GetUpdates {
        return None;
      }
      return getUpdates;
    }

    method SetResults(role: Role, results: Results) returns (ok: bool)
      modifies this
      ensures getUpdates == UpdateCache.SetResults(old(getUpdates), role, results)
      ensures ok <==> role == GetUpdates
    {
      if role != GetUpdates {
        return false;
      }
      Invalidate();
      getUpdates := Some(results);
      return true;
    }

    method Invalidate()
      modifies this
      ensures getUpdates == None
    {
      if getUpdates.Some? {
        getUpdates := None;
      }
    }
  }

  class Transaction {
    const cache: Cache
    const developerMode: bool
    var role: Role
    var cachedFilters: Filters
    var finished: bool
    var emitSignatureRequired: bool
    var emitEulaRequired: bool
    var emitMediaChangeRequired: bool
    var results: Results
    ghost var emitted: seq<Package>
    ghost var notices: seq<MessageKind>

    ghost function View(): Job
      reads this
    {
      Job(role, cachedFilters, finished, emitSignatureRequired, emitEulaRequired, emitMediaChangeRequired,
          results, emitted, notices)
    }

    constructor (cache: Cache, developerMode: bool, role: Role, filters: Filters)
      ensures View() == NewJob(role, filters) && this.cache == cache && this.developerMode == developerMode
    {
      this.cache, this.developerMode, this.role, this.cachedFilters := cache, developerMode, role, filters;
      finished, emitSignatureRequired, emitEulaRequired, emitMediaChangeRequired := false, false, false, false;
      results, emitted, notices := Results([], [], ExitUnknown), [], [];
    }

    method MessageCb(kind: MessageKind)
      modifies this
      ensures View() == UpdateCache.MessageCb(old(View()), kind, developerMode)
    {
      if !developerMode && (kind == BackendError || kind == DaemonError) {
        return;
      }
      results := results.(messages := results.messages + [kind]);
      notices := notices + [kind];
    }

    /** The complaint about a refused package reaches this transaction again as a message. */
    method PackageCb(item: Package)
      modifies this
      ensures View() == UpdateCache.PackageCb(old(View()), item, developerMode)
    {
      if finished {
        return;
      }
      var info := item.info;
      if role == UpdateSystem || role == InstallPackages || role == UpdatePackages {
        if info == Installed {
          MessageCb(BackendError);
          return;
        }
      }
      if cachedFilters.notInstalled {
        if info == Installed {
          MessageCb(BackendError);
          return;
        }
      }
      if cachedFilters.installed {
        if info == Available {
          MessageCb(BackendError);
          return;
        }
      }
      if info != InfoFinished {
        results := results.(packages := results.packages + [item]);
      }
      emitted := emitted + [item];
    }

    method FinishInvalidateCaches()
      modifies cache
      ensures cache.getUpdates == if Spoiling(role) then None
                                  else UpdateCache.SetResults(old(cache.getUpdates), role, results)
    {
      var _ := cache.SetResults(role, results);
      if role == UpdateSystem || role == UpdatePackages || role == RemovePackages ||
         role == RepoEnable || role == RepoSetData || role == RefreshCache {
        cache.Invalidate();
      }
    }

    method FinishedCb(exit: Exit) returns (told: Exit)
      modifies this, cache
      ensures View() == UpdateCache.FinishedCb(old(View()), exit)
      ensures cache.getUpdates == CacheAfterFinish(old(cache.getUpdates), old(View()), exit)
      ensures !old(finished) ==> told == FinalExit(old(View()), exit)
    {
      told := exit;
      if finished {
        return;
      }
      results := results.(exit := exit);
      finished := true;
      if emitSignatureRequired {
        told := KeyRequired;
      } else if emitEulaRequired {
        told := EulaRequired;
      } else if emitMediaChangeRequired {
        told := MediaChangeRequired;
      }
      if told == Success {
        FinishInvalidateCaches();
      }
    }

    /** A request to refresh empties the cache before it is authorized. */
    method RequestRefresh(supported: bool) returns (ok: bool)
      modifies this`role, cache
      ensures ok == supported
      ensures cache.getUpdates == if ok then None else old(cache.getUpdates)
      ensures View() == if ok then old(View()).(role := BackendModel.RefreshCache) else old(View())
    {
      if !supported {
        return false;
      }
      cache.Invalidate();
      role := BackendModel.RefreshCache;
      return true;
    }

    /** Replays a cached list to the client, package by package and message by message. */
    method TryEmitCache(useUpdateCache: bool) returns (ok: bool)
      requires role == GetUpdates
      modifies this`emitted, this`notices
      ensures var answer := UpdateCache.TryEmitCache(cache.getUpdates, useUpdateCache);
              && ok == answer.Some?
              && emitted == old(emitted) + (if ok then answer.value.packages else [])
              && notices == old(notices) + (if ok then answer.value.messages else [])
    {
      if !useUpdateCache {
        return false;
      }
      var cached := cache.GetResults(role);
      if cached.None? || cached.value.exit != Success {
        return false;
      }
      var packages, messages := cached.value.packages, cached.value.messages;
      for i := 0 to |packages|
        invariant emitted == old(emitted) + packages[..i] && notices == old(notices)
      {
        emitted := emitted + [packages[i]];
      }
      for i := 0 to |messages|
        invariant emitted == old(emitted) + packages && notices == old(notices) + messages[..i]
      {
        notices := notices + [messages[i]];
      }
      return true;
    }
  }

  /** The part of the engine that reacts to changes from outside. */
  class Engine {
    const cache: Cache
    var timeoutPriorityId: bool
    var timeoutNormalId: bool

    ghost function View(jobs: map<nat, Job>, log: seq<Fact>): Daemon
      reads this, cache
    {
      Daemon(cache.getUpdates, jobs, timeoutPriorityId, timeoutNormalId, log)
    }

    constructor (cache: Cache)
      ensures this.cache == cache && !timeoutPriorityId && !timeoutNormalId
    {
      this.cache, timeoutPriorityId, timeoutNormalId := cache, false, false;
    }

    method StateHasChanged(resume: bool)
      modifies this
      ensures forall jobs, log :: View(jobs, log) == ScheduleStateChange(old(View(jobs, log)), resume)
    {
      if timeoutPriorityId {
        return;
      }
      var isPriority := true;
      if resume {
        isPriority := false;
      }
      if !isPriority && timeoutNormalId {
        return;
      }
      if isPriority && timeoutNormalId {
        timeoutNormalId := false;
      }
      if isPriority {
        timeoutPriorityId := true;
      } else {
        timeoutNormalId := true;
      }
    }

    /** The callback of both timers; `again` keeps the timer that called it. */
    method StateChangedCb(online: bool) returns (again: bool)
      modifies this, cache
      ensures again == !online
      ensures forall jobs, log ::
                View(jobs, log + [StateTimerFired(online)]) == StateChanged(old(View(jobs, log)), online)
    {
      if !online {
        return true;
      }
      cache.Invalidate();
      timeoutPriorityId := false;
      timeoutNormalId := false;
      return false;
    }
  }
}
