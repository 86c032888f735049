/** What is accepted and what refused, and what an accepted call makes of the backend. */
module BackendRules {
  import opened Shared
  import opened Text
  import opened Packages
  import opened RemainingTime
  import opened BackendModel
  import opened BackendProofs

  // ----- packages -----

  /** What is reported of a package: a simulation says what it would do with it. */
  function ShownAs(role: Role, info: Info): Info {
    match role
    case SimulateInstallFiles | SimulateInstallPackages | SimulateRemovePackages | SimulateUpdatePackages =>
      (match info
       case Available => Installing
       case Installed => Removing
       case _ => info)
    case _ => info
  }

  /** A package that is not begun yet while another one is being worked on. */
  predicate Interrupts(b: Backend, item: Package) {
    var last := b.stream.lastPackage;
    && !b.stream.simultaneous && item.info != InfoFinished
    && last.Some? && last.value.id != item.id && last.value.info in ONGOING
  }

  lemma {:induction false} NewPackagesExactly(b: Backend, item: Package)
    ensures NewPackages(b, item)
         == if Interrupts(b, item)
            then [Package(InfoFinished, b.stream.lastPackage.value.id,
                          SafeSummary(b.stream.lastPackage.value.summary)), item]
            else [item]
  {
  }

  /** A backend that begins with another package while one is being worked on finishes that one first; nothing
      else is ever added to the packages that were asked for, and only a repetition is left out. */
  lemma {:induction false} FinishMarkExactly(b: Backend, info: Info, id: string, summary: Option<string>)
    requires PackageInv(b) && !b.life.setError && ValidId(id)
    ensures var last := b.stream.lastPackage;
            var item := Package(ShownAs(b.transactionRole, info), id, SafeSummary(summary));
            PackagesIn(PackageCall(b, info, id, summary).trace)
            == PackagesIn(b.trace)
               + (if last == Some(item) then []
                  else if Interrupts(b, item)
                  then [Package(InfoFinished, last.value.id, SafeSummary(last.value.summary)), item]
                  else [item])
  {
    var item := ItemOf(b, info, id, summary);
    assert item == Package(ShownAs(b.transactionRole, info), id, SafeSummary(summary));
    if b.stream.lastPackage == Some(item) {
      assert PackageCall(b, info, id, summary) == b;
    } else {
      PackageEffect(b, info, id, summary);
      NewPackagesExactly(b, item);
    }
  }

  /** The status that goes with what is being done. */
  function StatusOf(info: Info, before: Status): Status {
    match info
    case Downloading => StatusDownload
    case Updating => StatusUpdate
    case Installing => StatusInstall
    case Removing => StatusRemove
    case Cleanup => StatusCleanup
    case Obsoleting => StatusObsolete
    case _ => before
  }

  lemma {:induction false} SendStatus(b: Backend, item: Package)
    requires !b.life.setError
    ensures SendPackage(b, item).status == if b.stream.simultaneous then b.status else StatusOf(item.info, b.status)
  {
  }

  lemma {:induction false} MarkKeepsStatus(b: Backend, item: Package)
    requires !b.life.setError
    ensures var r := EmulateFinishedForPackage(b, item);
            r.status == b.status && r.life == b.life && r.stream.simultaneous == b.stream.simultaneous
  {
    EmulateShape(b, item);
    if EmulatesFor(b, item) {
      var last := b.stream.lastPackage.value;
      var mark := ItemOf(b, InfoFinished, last.id, last.summary);
      SendStatus(Remember(b, mark), mark);
      SendLife(Remember(b, mark), mark);
      assert EmulateFinishedForPackage(b, item) == b
          || EmulateFinishedForPackage(b, item) == SendPackage(Remember(b, mark), mark);
    }
  }

  lemma {:induction false} SendLife(b: Backend, item: Package)
    requires !b.life.setError
    ensures SendPackage(b, item).life == b.life
    ensures SendPackage(b, item).stream.simultaneous == b.stream.simultaneous
  {
    SendEffect(b, item);
  }

  /** Unless it works on packages in parallel, a backend's status follows what it does with them. */
  lemma {:induction false} PackageStatusExactly(b: Backend, info: Info, id: string, summary: Option<string>)
    requires !b.life.setError && !Skipped(b, info, id, summary)
    ensures PackageCall(b, info, id, summary).status
         == if b.stream.simultaneous then b.status else StatusOf(ShownAs(b.transactionRole, info), b.status)
  {
    var item := ItemOf(b, info, id, summary);
    assert item.info == ShownAs(b.transactionRole, info);
    if info == InfoFinished {
      SendStatus(Remember(b, item), item);
    } else {
      var b1 := EmulateFinishedForPackage(b, item);
      MarkKeepsStatus(b, item);
      SendStatus(Remember(b1, item), item);
      assert PackageCall(b, info, id, summary) == SendPackage(Remember(b1, item), item);
    }
  }

  /** A package id has four sections and a name. */
  lemma {:induction false} ValidIdExactly(id: string)
    ensures ValidId(id) <==> Count(id, ';') == 3 && id[0] != ';'
  {
    if id != "" {
      PiecesCount(id, ';');
      var i := IndexOf(id, ';');
      assert Pieces(id, ';')[0] == id[..i];
    }
  }

  /** What goes into the results is all but the finish marks, as often as it was reported. */
  lemma {:induction false} MeaningfulExactly(ps: seq<Package>, p: Package)
    ensures multiset(Meaningful(ps))[p] == if p.info == InfoFinished then 0 else multiset(ps)[p]
  {
    if ps != [] {
      var n := |ps| - 1;
      MeaningfulExactly(ps[..n], p);
      assert ps == ps[..n] + [ps[n]];
    }
  }

  // ----- errors -----

  /** The exit that an error leads to: signatures can be answered by trusting, a transaction that gave way to
      another was cancelled, anything else failed. */
  lemma {:induction false} ErrorExitExactly(b: Backend, code: ErrorCode)
    requires !b.life.setError && b.life.exit == ExitUnknown
    ensures Error(b, code).life.exit
         == match code
            case GpgFailure | BadGpgSignature | MissingGpgSignature => NeedUntrusted
            case CannotInstallRepoUnsigned | CannotUpdateRepoUnsigned => NeedUntrusted
            case PriorityCancelled => CancelledPriority
            case _ => Failed
  {
    ErrorEffect(b, code);
  }

  /** A method that is missing is reported as not supported, and the finish follows at once. */
  lemma {:induction false} NotImplementedExactly(b: Backend)
    requires !b.life.setError && b.life.exit == ExitUnknown
    ensures NotImplementedYet(b).trace == b.trace + [ErrorSignal(NotSupported), FinishedSignal(Failed)]
  {
    ErrorEffect(b, NotSupported);
    FinishedDelayEffect(Error(b, NotSupported));
    assert b.trace + [ErrorSignal(NotSupported)] + [FinishedSignal(Failed)]
        == b.trace + [ErrorSignal(NotSupported), FinishedSignal(Failed)];
  }

  // ----- what is accepted -----

  /** A status is taken unless an error came first and it is not the last one, or it is the one that only the
      daemon sets. */
  lemma {:induction false} StatusTakenExactly(b: Backend, status: Status)
    ensures SetStatus(b, status).status == status <==>
              b.status == status || (status != StatusWait && (b.life.setError ==> status == StatusFinished))
  {
  }

  /** Cancelling can always be withdrawn, and allowed until an error. */
  lemma {:induction false} AllowCancelTakenExactly(b: Backend, allow: bool)
    ensures SetAllowCancel(b, allow).allowCancel == (if allow then HintTrue else HintFalse) <==>
              !allow || !b.life.setError || b.allowCancel == HintTrue
  {
  }

  /** A percentage is taken unless an error came first, it is above the unknown one, or progress would fall
      short of 100. */
  lemma {:induction false} PercentageTakenExactly(b: Backend, percentage: nat, now: nat)
    ensures SetPercentage(b, percentage, now).progress.percentage == percentage <==>
              || b.progress.percentage == percentage
              || (!b.life.setError && percentage <= 101
                  && (b.progress.percentage < 100 ==> percentage > b.progress.percentage))
  {
  }

  /** Every percentage that is taken, but the unknown one, is recorded with the time since the role began
      unless a higher one was; the remaining time is that of the samples, where it is wanted. */
  lemma {:induction false} PercentageRecordedExactly(b: Backend, percentage: nat, now: nat)
    requires b.progress.time.start <= now && b.progress.percentage != percentage
    ensures var r, t := SetPercentage(b, percentage, now), b.progress.time;
            var taken := r.progress.percentage == percentage && percentage <= 100;
            && r.progress.time.samples
               == t.samples + (if taken && percentage >= t.lastPercentage
                               then [Sample(percentage, now - t.start + t.offset)] else [])
            && r.progress.remaining
               == (if taken && b.progress.useTime then Remaining(r.progress.time) else b.progress.remaining)
  {
    assert b.progress.time.samples + [] == b.progress.time.samples;
  }

  lemma {:induction false} SpeedTakenExactly(b: Backend, speed: nat)
    ensures SetSpeed(b, speed).progress.speed == speed <==> !b.life.setError || b.progress.speed == speed
  {
  }

  lemma {:induction false} SubPercentageTakenExactly(b: Backend, percentage: nat)
    ensures SetSubPercentage(b, percentage).progress.subPercentage == percentage <==>
              b.progress.subPercentage == percentage || (!b.life.setError && percentage <= 101)
  {
  }

  /** Reports that are passed on or dropped, and change nothing else but the number of file lists. */
  lemma {:induction false} ReportsPassedExactly(b: Backend, id: string, percentage: nat, kind: MessageKind,
                                                list: string)
    ensures SetItemProgress(b, id, percentage).trace
         == b.trace + if !b.life.setError && percentage <= 101 then [ItemProgressSignal(id, percentage)] else []
    ensures Message(b, kind).trace
         == b.trace + if kind != UntrustedPackage && (kind == BackendError || !b.life.setError)
                      then [MessageSignal(kind)] else []
    ensures var r := Files(b, id, list);
            if b.life.setError || !ValidId(id) then r == b
            else
              && r.downloadFiles == b.downloadFiles + 1 && |r.trace| == |b.trace| + 1
              && r.trace[|b.trace|].FilesSignal? && r.trace[|b.trace|].id == id
              && Join(r.trace[|b.trace|].files, ';') == list
  {
    FileListRoundTrip(list);
    assert b.trace + [] == b.trace;
  }

  /** Results of other kinds are passed on until an error. */
  lemma {:induction false} DataPassedExactly(b: Backend, number: nat)
    ensures Data(b, number) == b.(trace := b.trace + if b.life.setError then [] else [DataSignal(number)])
  {
    assert b.trace + [] == b.trace;
  }

  /** Clients hear of every change and of nothing else; a module that sets the waiting status is reported. */
  lemma {:induction false} ChangesToldExactly(b: Backend, status: Status, number: nat)
    ensures SetSpeed(b, number).trace
         == b.trace + if SetSpeed(b, number).progress.speed != b.progress.speed then [SpeedNotify(number)] else []
    ensures SetSubPercentage(b, number).trace
         == b.trace + if SetSubPercentage(b, number).progress.subPercentage != b.progress.subPercentage
                      then [SubPercentageNotify(number)] else []
    ensures var r := SetStatus(b, status);
            r.trace
            == b.trace
               + if r.status != b.status
                 then (if b.status == StatusSetup && status != StatusRunning
                       then [StatusChanged(StatusRunning)] else [])
                      + [StatusChanged(status)]
                 else if status == StatusWait && b.status != StatusWait && !b.life.setError
                 then [MessageSignal(BackendError)]
                 else []
  {
    assert b.trace + [] == b.trace;
    assert b.trace + [StatusChanged(StatusRunning)] + [StatusChanged(status)]
        == b.trace + ([StatusChanged(StatusRunning)] + [StatusChanged(status)]);
  }

  /** A summary that is kept is cleaned, and a missing one stays missing. */
  lemma {:induction false} SummaryKeptExactly(b: Backend, info: Info, id: string, text: string)
    ensures ItemOf(b, info, id, None).summary == None
    ensures var kept := ItemOf(b, info, id, Some(text)).summary;
            && kept.Some? && |kept.value| == |text|
            && forall i :: 0 <= i < |text| ==>
                 kept.value[i] == if text[i] in {'\\', '\U{000C}', '\r', '\t'} then ' ' else text[i]
  {
  }

  /** A role is taken by a backend that has none or this one; either way the transaction remembers its own. */
  lemma {:induction false} RoleTakenExactly(b: Backend, role: Role, now: nat)
    requires role != RoleUnknown
    ensures var r := SetRole(b, role, now);
            && r.transactionRole == role
            && (r.role == role <==> b.role == RoleUnknown || b.role == role)
            && (r.role == role ==> r.status == StatusWait && r.progress.time == Reset(now))
            && (r.role != role ==> r == b.(transactionRole := role))
  {
  }

  /** An accepted reset leaves nothing of the epoch before: backends that differ in everything but two
      settings are the same afterwards. */
  lemma {:induction false} ResetForgets(b: Backend, c: Backend, now: nat)
    requires b.status != StatusRunning && c.status != StatusRunning
    requires b.stream.simultaneous == c.stream.simultaneous && b.progress.useTime == c.progress.useTime
    ensures ResetCall(b, now).(past := []) == ResetCall(c, now).(past := [])
    ensures var r := ResetCall(b, now);
            && r.life == Life(false, false, false, false, ExitUnknown) && r.trace == [] && r.stream.results == []
            && r.progress.percentage == 102 && r.progress.subPercentage == 102
            && r.progress.speed == 0 && r.progress.remaining == 0 && r.progress.time.samples == []
            && r.status == StatusUnknown && r.allowCancel == HintUnset
            && r.role == RoleUnknown && r.transactionRole == RoleUnknown
            && r.stream.simultaneous == b.stream.simultaneous && r.progress.useTime == b.progress.useTime
  {
  }
}
