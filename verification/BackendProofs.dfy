/** What the backend's signals say over every sequence of calls. */
module BackendProofs {
  import opened Packages
  import opened RemainingTime
  import opened BackendModel

  // ----- readings of a trace -----

  function PackagesIn(t: seq<Signal>): seq<Package> {
    if t == [] then []
    else PackagesIn(t[..|t| - 1]) + (if t[|t| - 1].PackageSignal? then [t[|t| - 1].package] else [])
  }

  /** The exits that the finish signals said. */
  function ExitsIn(t: seq<Signal>): seq<Exit> {
    if t == [] then []
    else ExitsIn(t[..|t| - 1]) + (if t[|t| - 1].FinishedSignal? then [t[|t| - 1].exit] else [])
  }

  function FinishesIn(t: seq<Signal>): nat { |ExitsIn(t)| }

  lemma {:induction false} TraceStep(t: seq<Signal>, s: Signal)
    ensures PackagesIn(t + [s]) == PackagesIn(t) + (if s.PackageSignal? then [s.package] else [])
    ensures ExitsIn(t + [s]) == ExitsIn(t) + (if s.FinishedSignal? then [s.exit] else [])
  {
    assert (t + [s])[..|t|] == t;
  }

  function LastOf(ps: seq<Package>): Option<Package> { if ps == [] then None else Some(ps[|ps| - 1]) }

  predicate NoRepeat(ps: seq<Package>) { forall i :: 0 <= i < |ps| - 1 ==> ps[i] != ps[i + 1] }

  /** What the backend is doing with a package, as opposed to what is known about it. */
  const ONGOING: set<Info> :=
    {Downloading, Updating, Installing, Removing, Cleanup, Obsoleting, Reinstalling, Downgrading}

  /** A package that is being worked on is finished before another package is begun. */
  predicate Bracketed(ps: seq<Package>) {
    forall i :: 0 <= i < |ps| - 1 ==>
      !(ps[i].info in ONGOING && ps[i + 1].info != InfoFinished && ps[i + 1].id != ps[i].id)
  }

  // ----- calls that touch neither packages nor the life cycle -----

  predicate SameLife(b: Backend, r: Backend) {
    && r.life == b.life && r.stream.simultaneous == b.stream.simultaneous && r.past == b.past
    && ExitsIn(r.trace) == ExitsIn(b.trace)
  }

  predicate Quiet(b: Backend, r: Backend) {
    && r.life == b.life && r.stream == b.stream && r.past == b.past
    && ExitsIn(r.trace) == ExitsIn(b.trace) && PackagesIn(r.trace) == PackagesIn(b.trace)
  }

  lemma {:induction false} EmitQuiet(b: Backend, s: Signal)
    requires !s.PackageSignal? && !s.FinishedSignal?
    ensures Quiet(b, Emit(b, s))
  {
    TraceStep(b.trace, s);
  }

  lemma {:induction false} MessageQuiet(b: Backend, kind: MessageKind)
    ensures Quiet(b, Message(b, kind))
  {
    EmitQuiet(b, MessageSignal(kind));
  }

  lemma {:induction false} StatusQuiet(b: Backend, status: Status)
    ensures Quiet(b, SetStatus(b, status))
  {
    var r := SetStatus(b, status);
    if r == b {
    } else if status == StatusWait {
      MessageQuiet(b, BackendError);
    } else if status != StatusRunning && status != StatusSetup && b.status == StatusSetup {
      var b1 := Emit(b, StatusChanged(StatusRunning));
      EmitQuiet(b, StatusChanged(StatusRunning));
      EmitQuiet(b1.(status := status), StatusChanged(status));
      assert r == Emit(b1.(status := status), StatusChanged(status));
    } else {
      EmitQuiet(b.(status := status), StatusChanged(status));
      assert r == Emit(b.(status := status), StatusChanged(status));
    }
  }

  lemma {:induction false} AllowCancelQuiet(b: Backend, allow: bool)
    ensures Quiet(b, SetAllowCancel(b, allow))
  {
    var r := SetAllowCancel(b, allow);
    if r != b {
      EmitQuiet(b, AllowCancelSignal(allow));
      assert r == Emit(b, AllowCancelSignal(allow)).(allowCancel := r.allowCancel);
    }
  }

  lemma {:induction false} PercentageQuiet(b: Backend, percentage: nat, now: nat)
    ensures Quiet(b, SetPercentage(b, percentage, now))
  {
    var r := SetPercentage(b, percentage, now);
    if r == b {
    } else if r == Message(b, BackendError) {
      MessageQuiet(b, BackendError);
    } else {
      var b0 := b.(progress := b.progress.(percentage := percentage));
      var b1 := Emit(b0, PercentageNotify(percentage));
      EmitQuiet(b0, PercentageNotify(percentage));
      if r != b1 {
        var b2 := b1.(progress := r.progress);
        EmitQuiet(b2, RemainingNotify(r.progress.remaining));
        assert r == Emit(b2, RemainingNotify(r.progress.remaining));
      }
    }
  }

  predicate IsQuietCall(c: Call) {
    c.CallStatus? || c.CallPercentage? || c.CallSpeed? || c.CallItemProgress? || c.CallSubPercentage? ||
    c.CallMessage? || c.CallAllowCancel? || c.CallFiles? || c.CallData? || c.CallStartRole? || c.CallSetRole?
  }

  lemma {:induction false} StartRoleQuiet(b: Backend, role: Role, now: nat)
    ensures Quiet(b, StartRole(b, role, now))
  {
    var r := StartRole(b, role, now);
    if r != b {
      var b1 := b.(progress := b.progress.(time := Reset(now)), role := role, status := StatusWait);
      EmitQuiet(b1, StatusChanged(StatusWait));
      assert r == Emit(b1, StatusChanged(StatusWait));
    }
  }

  /** The calls that emit one signal at most and set one field. */
  lemma {:induction false} SimpleQuiet(b: Backend, c: Call)
    requires c.CallSpeed? || c.CallItemProgress? || c.CallSubPercentage? || c.CallFiles? || c.CallData?
    ensures Quiet(b, Do(b, c))
  {
    var r := Do(b, c);
    if r != b {
      match c
      case CallSpeed(speed) => EmitQuiet(b.(progress := b.progress.(speed := speed)), SpeedNotify(speed));
      case CallItemProgress(id, percentage) => EmitQuiet(b, ItemProgressSignal(id, percentage));
      case CallSubPercentage(percentage) =>
        EmitQuiet(b.(progress := b.progress.(subPercentage := percentage)), SubPercentageNotify(percentage));
      case CallFiles(id, filelist) =>
        EmitQuiet(b, FilesSignal(id, Text.Split(filelist, ';')));
        assert r == Emit(b, FilesSignal(id, Text.Split(filelist, ';'))).(downloadFiles := r.downloadFiles);
      case CallData(number) => EmitQuiet(b, DataSignal(number));
    }
  }

  lemma {:induction false} QuietCall(b: Backend, c: Call)
    requires IsQuietCall(c)
    ensures Quiet(b, Do(b, c))
  {
    match c
    case CallStatus(status) => StatusQuiet(b, status);
    case CallPercentage(percentage, now) => PercentageQuiet(b, percentage, now);
    case CallMessage(kind) => MessageQuiet(b, kind);
    case CallAllowCancel(allow) => AllowCancelQuiet(b, allow);
    case CallStartRole(role, now) => StartRoleQuiet(b, role, now);
    case CallSetRole(role, now) => StartRoleQuiet(b.(transactionRole := role), role, now);
    case _ => SimpleQuiet(b, c);
  }

  // ----- invariants -----

  predicate LifeInv(b: Backend) {
    var n := FinishesIn(b.trace);
    && n <= 1
    && (n == 1 <==> b.life.finished && !b.life.finishTimer)
    && (b.life.finishTimer ==> b.life.finished)
    && (b.life.errorTimer ==> b.life.setError)
    && (b.life.setError && !b.life.finished ==> b.life.errorTimer)
    && (b.life.setError && n == 0 ==> b.life.exit != ExitUnknown)
    && (n == 1 ==> b.life.exit != ExitUnknown && ExitsIn(b.trace) == [b.life.exit])
  }

  predicate PackageInv(b: Backend) {
    && (!b.life.setError ==> b.stream.lastPackage == LastOf(PackagesIn(b.trace)))
    && (b.stream.lastPackage.Some? ==> ValidId(b.stream.lastPackage.value.id))
    && b.stream.results == Meaningful(PackagesIn(b.trace))
    && NoRepeat(PackagesIn(b.trace))
  }

  predicate PastInv(past: seq<seq<Signal>>) {
    forall t :: t in past ==> FinishesIn(t) <= 1 && NoRepeat(PackagesIn(t))
  }

  predicate Inv(b: Backend) { LifeInv(b) && PackageInv(b) && PastInv(b.past) }

  // ----- packages -----

  lemma {:induction false} SendEffect(b: Backend, item: Package)
    requires !b.life.setError
    ensures var r := SendPackage(b, item);
            && SameLife(b, r) && r.stream.lastPackage == b.stream.lastPackage
            && PackagesIn(r.trace) == PackagesIn(b.trace) + [item]
            && r.stream.results == b.stream.results + (if item.info != InfoFinished then [item] else [])
  {
    var status := if b.stream.simultaneous then None else StatusFor(item.info);
    var b1 := if status.Some? then SetStatus(b, status.value) else b;
    if status.Some? { StatusQuiet(b, status.value); }
    TraceStep(b1.trace, PackageSignal(item));
  }

  /** What a package call adds to the stream when it is emitted. */
  function NewPackages(b: Backend, item: Package): seq<Package> {
    var last := b.stream.lastPackage;
    if item.info != InfoFinished && EmulatesFor(b, item)
    then [Package(InfoFinished, last.value.id, SafeSummary(last.value.summary)), item]
    else [item]
  }

  predicate Skipped(b: Backend, info: Info, id: string, summary: Option<string>) {
    !ValidId(id) || b.stream.lastPackage == Some(ItemOf(b, info, id, summary))
  }

  lemma {:induction false} FinishedPackageEffect(b: Backend, id: string, summary: Option<string>)
    requires !b.life.setError && !Skipped(b, InfoFinished, id, summary)
    ensures var r := PackageCall(b, InfoFinished, id, summary);
            var item := Package(InfoFinished, id, SafeSummary(summary));
            && SameLife(b, r) && r.stream.lastPackage == Some(item) && r.stream.results == b.stream.results
            && PackagesIn(r.trace) == PackagesIn(b.trace) + [item]
            && r.transactionRole == b.transactionRole
  {
    var item := Package(InfoFinished, id, SafeSummary(summary));
    SendEffect(Remember(b, item), item);
  }

  predicate EmulatesFor(b: Backend, item: Package) {
    var last := b.stream.lastPackage;
    !b.stream.simultaneous && last.Some? && last.value.id != item.id && Active(last.value.info)
  }

  lemma {:induction false} EmulateShape(b: Backend, item: Package)
    ensures EmulateFinishedForPackage(b, item)
         == if EmulatesFor(b, item)
            then PackageCall(b, InfoFinished, b.stream.lastPackage.value.id, b.stream.lastPackage.value.summary)
            else b
  {
  }

  lemma {:induction false} EmulateForPackageEffect(b: Backend, item: Package)
    requires PackageInv(b) && !b.life.setError && item.info != InfoFinished
    ensures var r := EmulateFinishedForPackage(b, item);
            && SameLife(b, r) && r.stream.results == b.stream.results
            && PackagesIn(r.trace) + [item] == PackagesIn(b.trace) + NewPackages(b, item)
  {
    EmulateShape(b, item);
    if EmulatesFor(b, item) {
      var last := b.stream.lastPackage.value;
      FinishedPackageEffect(b, last.id, last.summary);
      var done := Package(InfoFinished, last.id, SafeSummary(last.summary));
      assert PackagesIn(b.trace) + [done, item] == PackagesIn(b.trace) + [done] + [item];
    }
  }

  lemma {:induction false} PackageEffect(b: Backend, info: Info, id: string, summary: Option<string>)
    requires PackageInv(b) && !b.life.setError && !Skipped(b, info, id, summary)
    ensures var r := PackageCall(b, info, id, summary);
            var item := ItemOf(b, info, id, summary);
            && SameLife(b, r) && r.stream.lastPackage == Some(item)
            && PackagesIn(r.trace) == PackagesIn(b.trace) + NewPackages(b, item)
            && r.stream.results == b.stream.results + (if item.info != InfoFinished then [item] else [])
  {
    var item := ItemOf(b, info, id, summary);
    if info == InfoFinished {
      FinishedPackageEffect(b, id, summary);
    } else {
      var b1 := EmulateFinishedForPackage(b, item);
      EmulateForPackageEffect(b, item);
      SendEffect(Remember(b1, item), item);
    }
  }

  lemma {:induction false} PackageAfterError(b: Backend, info: Info, id: string, summary: Option<string>)
    requires b.life.setError && PackageInv(b)
    ensures var r := PackageCall(b, info, id, summary);
            && r == b.(stream := b.stream.(lastPackage := r.stream.lastPackage))
            && (r.stream.lastPackage.Some? ==> ValidId(r.stream.lastPackage.value.id))
  {
    var item := ItemOf(b, info, id, summary);
    EmulateShape(b, item);
    if !Skipped(b, info, id, summary) {
      var b1 := if info != InfoFinished then EmulateFinishedForPackage(b, item) else b;
      assert b1 == b.(stream := b.stream.(lastPackage := b1.stream.lastPackage));
      assert PackageCall(b, info, id, summary) == Remember(b1, item);
    }
  }

  lemma {:induction false} GrowsByOne(ps: seq<Package>, p: Package)
    requires NoRepeat(ps) && LastOf(ps) != Some(p)
    ensures NoRepeat(ps + [p]) && LastOf(ps + [p]) == Some(p)
    ensures Meaningful(ps + [p]) == Meaningful(ps) + (if p.info != InfoFinished then [p] else [])
  {
    MeaningfulStep(ps, p);
  }

  /** The stream stays free of repeats, and its meaningful part grows by the new item. */
  lemma {:induction false} StreamGrows(b: Backend, item: Package)
    requires PackageInv(b) && !b.life.setError && b.stream.lastPackage != Some(item)
    ensures var ps, added := PackagesIn(b.trace), NewPackages(b, item);
            && NoRepeat(ps + added) && LastOf(ps + added) == Some(item)
            && Meaningful(ps + added) == Meaningful(ps) + (if item.info != InfoFinished then [item] else [])
  {
    var ps, last := PackagesIn(b.trace), b.stream.lastPackage;
    if item.info != InfoFinished && EmulatesFor(b, item) {
      var done := Package(InfoFinished, last.value.id, SafeSummary(last.value.summary));
      GrowsByOne(ps, done);
      GrowsByOne(ps + [done], item);
      assert ps + [done, item] == ps + [done] + [item];
    } else {
      GrowsByOne(ps, item);
    }
  }

  lemma {:induction false} PackageKeepsInv(b: Backend, info: Info, id: string, summary: Option<string>)
    requires PackageInv(b)
    ensures PackageInv(PackageCall(b, info, id, summary)) && SameLife(b, PackageCall(b, info, id, summary))
  {
    var r := PackageCall(b, info, id, summary);
    if r == b {
    } else if b.life.setError {
      PackageAfterError(b, info, id, summary);
    } else {
      PackageEffect(b, info, id, summary);
      StreamGrows(b, ItemOf(b, info, id, summary));
    }
  }

  lemma {:induction false} EmulateKeepsInv(b: Backend)
    requires PackageInv(b)
    ensures PackageInv(EmulateFinished(b)) && SameLife(b, EmulateFinished(b))
  {
    if EmulateFinished(b) != b {
      PackageKeepsInv(b, InfoFinished, b.stream.lastPackage.value.id, b.stream.lastPackage.value.summary);
    }
  }

  lemma {:induction false} EmulateMarks(b: Backend)
    requires PackageInv(b) && !b.life.setError && !b.stream.simultaneous
    requires b.stream.lastPackage.Some? && Active(b.stream.lastPackage.value.info)
    ensures var last := b.stream.lastPackage.value;
            PackagesIn(EmulateFinished(b).trace)
            == PackagesIn(b.trace) + [Package(InfoFinished, last.id, SafeSummary(last.summary))]
  {
    var last := b.stream.lastPackage.value;
    FinishedPackageEffect(b, last.id, last.summary);
    assert EmulateFinished(b) == PackageCall(b, InfoFinished, last.id, last.summary);
  }

  lemma {:induction false} NothingOngoing(b: Backend)
    requires PackageInv(b) && !b.life.setError
    requires b.stream.lastPackage.None? || b.stream.lastPackage.value.info !in ONGOING
    ensures Closed(PackagesIn(b.trace))
  {
  }

  predicate Closed(ps: seq<Package>) { ps == [] || ps[|ps| - 1].info !in ONGOING }

  lemma {:induction false} ClosedByMark(ps: seq<Package>, id: string, summary: Option<string>)
    ensures Closed(ps + [Package(InfoFinished, id, summary)])
  {
  }

  lemma {:induction false} OngoingIsActive(info: Info)
    ensures Active(info) <==> info in ONGOING
  {
  }

  /** After the emulated finish of an error-free, non-simultaneous epoch nothing is left active. */
  lemma {:induction false} EmulateCloses(b: Backend)
    requires PackageInv(b) && !b.life.setError && !b.stream.simultaneous
    ensures Closed(PackagesIn(EmulateFinished(b).trace))
  {
    if b.stream.lastPackage.Some? && Active(b.stream.lastPackage.value.info) {
      var last := b.stream.lastPackage.value;
      EmulateMarks(b);
      ClosedByMark(PackagesIn(b.trace), last.id, SafeSummary(last.summary));
    } else {
      if b.stream.lastPackage.Some? { OngoingIsActive(b.stream.lastPackage.value.info); }
      NothingOngoing(b);
      assert EmulateFinished(b) == b;
    }
  }

  // ----- every call keeps the invariants -----

  lemma {:induction false} ComplainQuiet(b: Backend, missing: bool)
    ensures Quiet(b, Complain(b, missing))
    ensures Complain(b, missing) == b.(trace := Complain(b, missing).trace)
  {
    MessageQuiet(b, BackendError);
  }

  lemma {:induction false} FinishMessagesEffect(b: Backend)
    ensures Quiet(ClearErrorTimer(b), FinishMessages(b))
  {
    var b1 := Complain(b, !b.stream.hasSentPackage && ShouldSendPackages(b.role));
    ComplainQuiet(b, !b.stream.hasSentPackage && ShouldSendPackages(b.role));
    var b2 := Complain(b1, b1.role == DownloadPackages && b1.downloadFiles == 0);
    ComplainQuiet(b1, b1.role == DownloadPackages && b1.downloadFiles == 0);
    ComplainQuiet(ClearErrorTimer(b2), b2.status == StatusSetup);
  }

  /** The two stages of an accepted finish. */
  lemma {:induction false} FinishedEffect(b: Backend)
    requires PackageInv(b) && !b.life.finished
    ensures var b1, r := EmulateFinished(FinishMessages(b)), FinishedCall(b);
            && PackageInv(b1) && SameLife(ClearErrorTimer(b), b1)
            && r.stream == b1.stream && PackagesIn(r.trace) == PackagesIn(b1.trace)
            && r.life == b.life.(errorTimer := false, finished := true, finishTimer := true)
            && r.past == b.past && ExitsIn(r.trace) == ExitsIn(b.trace)
  {
    FinishMessagesEffect(b);
    var b0 := FinishMessages(b);
    EmulateKeepsInv(b0);
    var b1 := EmulateFinished(b0);
    AllowCancelQuiet(b1, false);
    StatusQuiet(SetAllowCancel(b1, false), StatusFinished);
  }

  lemma {:induction false} FinishedKeepsInv(b: Backend)
    requires Inv(b)
    ensures Inv(FinishedCall(b))
  {
    if !b.life.finished { FinishedEffect(b); }
  }

  lemma {:induction false} FinishedDelayEffect(b: Backend)
    ensures var r := FinishedDelay(b);
            && r.life.exit == (if b.life.exit == ExitUnknown then Success else b.life.exit)
            && r == b.(life := b.life.(exit := r.life.exit, finishTimer := false),
                       trace := b.trace + [FinishedSignal(r.life.exit)])
            && ExitsIn(r.trace) == ExitsIn(b.trace) + [r.life.exit] && PackagesIn(r.trace) == PackagesIn(b.trace)
  {
    TraceStep(b.trace, FinishedSignal(FinishedDelay(b).life.exit));
  }

  lemma {:induction false} ErrorEffect(b: Backend, code: ErrorCode)
    requires !b.life.setError
    ensures var r := Error(b, code);
            && r.life.exit == (if b.life.exit == ExitUnknown then ExitFor(code) else b.life.exit)
            && r == b.(life := b.life.(setError := true, errorTimer := true, exit := r.life.exit),
                       trace := b.trace + [ErrorSignal(code)])
            && ExitsIn(r.trace) == ExitsIn(b.trace) && PackagesIn(r.trace) == PackagesIn(b.trace)
  {
    TraceStep(b.trace, ErrorSignal(code));
  }

  lemma {:induction false} ResetKeepsInv(b: Backend, now: nat)
    requires Inv(b)
    ensures Inv(ResetCall(b, now))
  {
    FinishedDelayEffect(b);
  }

  lemma {:induction false} QuietKeepsInv(b: Backend, r: Backend)
    requires Inv(b) && Quiet(b, r)
    ensures Inv(r)
  {
  }

  lemma {:induction false} ErrorKeepsInv(b: Backend, code: ErrorCode)
    requires Inv(b)
    ensures Inv(Error(b, code))
  {
    if !b.life.setError { ErrorEffect(b, code); }
  }

  lemma {:induction false} ErrorTimeoutKeepsInv(b: Backend)
    requires Inv(b)
    ensures Inv(ErrorTimeout(b))
  {
    var b1 := Emit(b, MessageSignal(BackendError));
    EmitQuiet(b, MessageSignal(BackendError));
    QuietKeepsInv(b, b1);
    FinishedKeepsInv(b1);
    if !b.life.finished { FinishedEffect(b1); }
  }

  lemma {:induction false} FinishTimeoutKeepsInv(b: Backend)
    requires Inv(b)
    ensures Inv(FinishTimeout(b))
  {
    FinishedDelayEffect(b);
  }

  lemma {:induction false} DoKeepsInv(b: Backend, c: Call)
    requires Inv(b)
    ensures Inv(Do(b, c))
  {
    if IsQuietCall(c) {
      QuietCall(b, c);
      QuietKeepsInv(b, Do(b, c));
    } else {
      match c
      case CallPackage(info, id, summary) => PackageKeepsInv(b, info, id, summary);
      case CallSimultaneous(_) =>
      case CallError(code) => ErrorKeepsInv(b, code);
      case CallExit(_) =>
      case CallFinished => FinishedKeepsInv(b);
      case CallErrorTimer => ErrorTimeoutKeepsInv(b);
      case CallFinishTimer => FinishTimeoutKeepsInv(b);
      case CallReset(now) => ResetKeepsInv(b, now);
    }
  }

  /** Finish at most once, nothing repeated, results equal to the meaningful packages: in every
      reachable state of every epoch, past or present. */
  lemma {:induction false} EveryEpoch(b: Backend, calls: seq<Call>)
    requires Inv(b)
    ensures Inv(DoAll(b, calls))
    decreases |calls|
  {
    if calls != [] {
      DoKeepsInv(b, calls[0]);
      EveryEpoch(Do(b, calls[0]), calls[1..]);
    }
  }

  lemma {:induction false} NewEpochInv(simultaneous: bool, useTime: bool, now: nat)
    ensures Inv(NewEpoch(simultaneous, useTime, now, []))
  {
  }
}
