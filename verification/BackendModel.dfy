/**
 The shared backend as a value: what every call of a backend module, a helper or the main loop does
 to its fields, and the signals it emits. The backend is locked and not initialising throughout.
 The class in Backend.dfy works in place and is proved against these functions.
 */
module BackendModel {
  import opened Shared
  import opened Text
  import opened Packages
  import opened RemainingTime

  // ----- enumerations; values that no branch mentions are numbered -----

  datatype Status =
    | StatusUnknown | StatusWait | StatusSetup | StatusRunning | StatusFinished | StatusCancel
    | StatusDownload | StatusUpdate | StatusInstall | StatusRemove | StatusCleanup | StatusObsolete
    | StatusOther(number: nat)

  datatype Exit =
    | ExitUnknown | Success | Failed | Cancelled | KeyRequired | EulaRequired | Killed
    | MediaChangeRequired | NeedUntrusted | CancelledPriority | SkipTransaction | RepairRequired

  datatype ErrorCode =
    | GpgFailure | BadGpgSignature | MissingGpgSignature | CannotInstallRepoUnsigned
    | CannotUpdateRepoUnsigned | PriorityCancelled | UnfinishedTransaction | ProcessKill
    | InternalError | NotSupported | TransactionCancelled | ErrorOther(number: nat)

  datatype MessageKind = BackendError | DaemonError | UntrustedPackage | MessageOther(number: nat)

  datatype Role =
    | RoleUnknown | InstallPackages | RemovePackages | UpdatePackages | DownloadPackages
    | SimulateInstallFiles | SimulateInstallPackages | SimulateRemovePackages | SimulateUpdatePackages
    | GetUpdates | UpdateSystem | RepoEnable | RepoSetData | RefreshCache | RoleOther(number: nat)

  const PERCENTAGE_INVALID: nat := 101
  const PERCENTAGE_DEFAULT: nat := 102

  datatype Signal =
    | StatusChanged(status: Status)
    | PackageSignal(package: Package)
    | MessageSignal(kind: MessageKind)
    | ErrorSignal(code: ErrorCode)
    | AllowCancelSignal(allow: bool)
    | FinishedSignal(exit: Exit)
    | PercentageNotify(percentage: nat)
    | RemainingNotify(remaining: nat)
    | SpeedNotify(speed: nat)
    | SubPercentageNotify(percentage: nat)
    | ItemProgressSignal(id: string, percentage: nat)
    | FilesSignal(id: string, files: seq<string>)
    | DataSignal(number: nat)

  /** The flags, timers and exit code that decide how a transaction ends. */
  datatype Life = Life(finished: bool, setError: bool, errorTimer: bool, finishTimer: bool, exit: Exit)

  /** What the package calls keep. */
  datatype Stream = Stream(
    simultaneous: bool,
    hasSentPackage: bool,
    lastPackage: Option<Package>,
    results: seq<Package>)

  datatype Progress = Progress(
    percentage: nat,
    remaining: nat,
    subPercentage: nat,
    speed: nat,
    useTime: bool,
    time: TimeState)

  /** `trace` is what has been emitted since the last accepted reset, `past` the traces of the
      epochs before. */
  datatype Backend = Backend(
    life: Life,
    stream: Stream,
    progress: Progress,
    status: Status,
    allowCancel: Hint,
    role: Role,
    transactionRole: Role,
    downloadFiles: nat,
    trace: seq<Signal>,
    past: seq<seq<Signal>>)

  function Emit(b: Backend, s: Signal): Backend { b.(trace := b.trace + [s]) }

  // ----- progress -----

  function SetPercentage(b: Backend, percentage: nat, now: nat): Backend {
    if b.life.setError || b.progress.percentage == percentage then b
    else if percentage > PERCENTAGE_INVALID then Message(b, BackendError)
    else if percentage < 100 && b.progress.percentage < 100 && percentage < b.progress.percentage
    then Message(b, BackendError)
    else
      var b1 := Emit(b.(progress := b.progress.(percentage := percentage)), PercentageNotify(percentage));
      if percentage == PERCENTAGE_INVALID then b1
      else
        var time := AddData(b1.progress.time, percentage, now);
        var remaining := if b1.progress.useTime then Remaining(time) else b1.progress.remaining;
        Emit(b1.(progress := b1.progress.(time := time, remaining := remaining)), RemainingNotify(remaining))
  }

  function SetSpeed(b: Backend, speed: nat): Backend {
    if b.life.setError || b.progress.speed == speed then b
    else Emit(b.(progress := b.progress.(speed := speed)), SpeedNotify(speed))
  }

  function SetItemProgress(b: Backend, id: string, percentage: nat): Backend {
    if b.life.setError || (percentage > 100 && percentage != PERCENTAGE_INVALID) then b
    else Emit(b, ItemProgressSignal(id, percentage))
  }

  function SetSubPercentage(b: Backend, percentage: nat): Backend {
    if b.life.setError || b.progress.subPercentage == percentage then b
    else if percentage > 100 && percentage != PERCENTAGE_INVALID then b
    else Emit(b.(progress := b.progress.(subPercentage := percentage)), SubPercentageNotify(percentage))
  }

  // ----- messages, status and data -----

  function Message(b: Backend, kind: MessageKind): Backend {
    if (b.life.setError && kind != BackendError) || kind == UntrustedPackage then b
    else Emit(b, MessageSignal(kind))
  }

  /** Leaving the setup status for anything but running emits a running status first. */
  function SetStatus(b: Backend, status: Status): Backend {
    if b.status == status then b
    else if b.life.setError && status != StatusFinished then b
    else if status == StatusWait then Message(b, BackendError)
    else
      var b1 := if status != StatusRunning && status != StatusSetup && b.status == StatusSetup
                then Emit(b, StatusChanged(StatusRunning)) else b;
      Emit(b1.(status := status), StatusChanged(status))
  }

  function SetAllowCancel(b: Backend, allow: bool): Backend {
    var hint := if allow then HintTrue else HintFalse;
    if (b.life.setError && allow) || b.allowCancel == hint then b
    else Emit(b, AllowCancelSignal(allow)).(allowCancel := hint)
  }

  function Files(b: Backend, id: string, filelist: string): Backend {
    if b.life.setError || !ValidId(id) then b
    else Emit(b, FilesSignal(id, Split(filelist, ';'))).(downloadFiles := b.downloadFiles + 1)
  }

  /** The other result signals are all refused after an error. */
  function Data(b: Backend, number: nat): Backend {
    if b.life.setError then b else Emit(b, DataSignal(number))
  }

  // ----- packages -----

  /** Backslash, form feed, carriage return and tab become spaces; a newline stays. */
  function StrSafe(text: string): (r: string)
    ensures |r| == |text|
    ensures forall i :: 0 <= i < |text| ==>
              r[i] == if text[i] in ['\\', '\U{000C}', '\r', '\t'] then ' ' else text[i]
  {
    seq(|text|, i requires 0 <= i < |text| =>
      if text[i] in ['\\', '\U{000C}', '\r', '\t'] then ' ' else text[i])
  }

  function SafeSummary(summary: Option<string>): Option<string> {
    match summary
    case None => None
    case Some(text) => Some(StrSafe(text))
  }

  predicate Simulates(role: Role) {
    role == SimulateInstallFiles || role == SimulateInstallPackages ||
    role == SimulateRemovePackages || role == SimulateUpdatePackages
  }

  function SimulatedInfo(role: Role, info: Info): Info {
    if Simulates(role) && info == Available then Installing
    else if Simulates(role) && info == Installed then Removing
    else info
  }

  predicate Active(info: Info) {
    info == Downloading || info == Updating || info == Installing || info == Removing ||
    info == Cleanup || info == Obsoleting || info == Reinstalling || info == Downgrading
  }

  function StatusFor(info: Info): Option<Status> {
    match info
    case Downloading => Some(StatusDownload)
    case Updating => Some(StatusUpdate)
    case Installing => Some(StatusInstall)
    case Removing => Some(StatusRemove)
    case Cleanup => Some(StatusCleanup)
    case Obsoleting => Some(StatusObsolete)
    case _ => None
  }

  /** Finishes the last package on behalf of the backend, if it was left active. */
  function EmulateFinished(b: Backend): Backend
    decreases 1
  {
    if b.stream.simultaneous || b.stream.lastPackage.None? || !Active(b.stream.lastPackage.value.info) then b
    else PackageCall(b, InfoFinished, b.stream.lastPackage.value.id, b.stream.lastPackage.value.summary)
  }

  function EmulateFinishedForPackage(b: Backend, item: Package): Backend
    decreases 2
  {
    if b.stream.simultaneous || b.stream.lastPackage.None? || b.stream.lastPackage.value.id == item.id then b
    else EmulateFinished(b)
  }

  /** The item a package call is about, once its text and info are fixed up. */
  function ItemOf(b: Backend, info: Info, id: string, summary: Option<string>): Package {
    Package(SimulatedInfo(b.transactionRole, info), id, SafeSummary(summary))
  }

  function PackageCall(b: Backend, info: Info, id: string, summary: Option<string>): Backend
    decreases if info == InfoFinished then 0 else 3
  {
    if !ValidId(id) then b
    else
      var item := ItemOf(b, info, id, summary);
      if b.stream.lastPackage == Some(item) then b
      else
        var b1 := if info != InfoFinished then EmulateFinishedForPackage(b, item) else b;
        SendPackage(Remember(b1, item), item)
  }

  function Remember(b: Backend, item: Package): Backend {
    b.(stream := b.stream.(lastPackage := Some(item)))
  }

  function SetSimultaneous(b: Backend, simultaneous: bool): Backend {
    b.(stream := b.stream.(simultaneous := simultaneous))
  }

  /** The item is remembered even after an error, but then neither emitted nor kept. */
  function SendPackage(b: Backend, item: Package): Backend {
    if b.life.setError then b
    else
      var status := if b.stream.simultaneous then None else StatusFor(item.info);
      var b1 := if status.Some? then SetStatus(b, status.value) else b;
      var b2 := Emit(b1.(stream := b1.stream.(hasSentPackage := true)), PackageSignal(item));
      if item.info != InfoFinished then b2.(stream := b2.stream.(results := b2.stream.results + [item])) else b2
  }

  // ----- errors and the end of a transaction -----

  function SetExit(b: Backend, exit: Exit): Backend {
    if b.life.exit != ExitUnknown then b else b.(life := b.life.(exit := exit))
  }

  predicate NeedsUntrusted(code: ErrorCode) {
    code == GpgFailure || code == BadGpgSignature || code == MissingGpgSignature ||
    code == CannotInstallRepoUnsigned || code == CannotUpdateRepoUnsigned
  }

  function ExitFor(code: ErrorCode): Exit {
    if NeedsUntrusted(code) then NeedUntrusted
    else if code == PriorityCancelled then CancelledPriority
    else Failed
  }

  function Error(b: Backend, code: ErrorCode): Backend {
    if b.life.setError then b
    else
      var b1 := SetExit(b.(life := b.life.(setError := true, errorTimer := true)), ExitFor(code));
      var b2 := if code == UnfinishedTransaction then SetExit(b1, RepairRequired) else b1;
      Emit(b2, ErrorSignal(code))
  }

  function FinishedDelay(b: Backend): Backend {
    var b1 := if b.life.exit == ExitUnknown then SetExit(b, Success) else b;
    Emit(b1.(life := b1.life.(finishTimer := false)), FinishedSignal(b1.life.exit))
  }

  function ClearErrorTimer(b: Backend): Backend { b.(life := b.life.(errorTimer := false)) }

  function MarkFinished(b: Backend): Backend {
    b.(life := b.life.(finished := true, finishTimer := true))
  }

  predicate ShouldSendPackages(role: Role) {
    role == InstallPackages || role == RemovePackages || role == UpdatePackages
  }

  function Complain(b: Backend, missing: bool): Backend {
    if missing && !b.life.setError then Message(b, BackendError) else b
  }

  /** The complaints about a backend that finishes without having done its part; the error timer is
      cleared between them. */
  function FinishMessages(b: Backend): Backend {
    var b1 := Complain(b, !b.stream.hasSentPackage && ShouldSendPackages(b.role));
    var b2 := Complain(b1, b1.role == DownloadPackages && b1.downloadFiles == 0);
    Complain(ClearErrorTimer(b2), b2.status == StatusSetup)
  }

  function FinishedCall(b: Backend): Backend {
    if b.life.finished then b
    else
      var b1 := EmulateFinished(FinishMessages(b));
      MarkFinished(SetStatus(SetAllowCancel(b1, false), StatusFinished))
  }

  function ErrorTimeout(b: Backend): Backend {
    if !b.life.errorTimer then b
    else if b.life.finished then ClearErrorTimer(b)
    else ClearErrorTimer(FinishedCall(Emit(b, MessageSignal(BackendError))))
  }

  function FinishTimeout(b: Backend): Backend {
    if !b.life.finishTimer then b else FinishedDelay(b)
  }

  /** Bypasses the finished flag and the grace timer altogether. */
  function NotImplementedYet(b: Backend): Backend { FinishedDelay(Error(b, NotSupported)) }

  // ----- roles and epochs -----

  function StartRole(b: Backend, role: Role, now: nat): Backend {
    if b.role != RoleUnknown && b.role != role then b
    else
      var progress := b.progress.(time := Reset(now));
      Emit(b.(progress := progress, role := role, status := StatusWait), StatusChanged(StatusWait))
  }

  function SetRole(b: Backend, role: Role, now: nat): Backend {
    StartRole(b.(transactionRole := role), role, now)
  }

  /** The part of a reset that still belongs to the epoch that ends. */
  function FlushFinish(b: Backend): Backend {
    if b.life.finishTimer then FinishedDelay(b) else b
  }

  function NewEpoch(simultaneous: bool, useTime: bool, now: nat, past: seq<seq<Signal>>): Backend {
    Backend(
      life := Life(false, false, false, false, ExitUnknown),
      stream := Stream(simultaneous, false, None, []),
      progress := Progress(PERCENTAGE_DEFAULT, 0, PERCENTAGE_DEFAULT, 0, useTime, Reset(now)),
      status := StatusUnknown, allowCancel := HintUnset,
      role := RoleUnknown, transactionRole := RoleUnknown, downloadFiles := 0,
      trace := [], past := past)
  }

  function ResetCall(b: Backend, now: nat): Backend {
    if b.status == StatusRunning then b
    else NewEpoch(b.stream.simultaneous, b.progress.useTime, now, b.past + [FlushFinish(b).trace])
  }

  // ----- runs -----

  datatype Call =
    | CallPackage(info: Info, id: string, summary: Option<string>)
    | CallStatus(status: Status)
    | CallPercentage(percentage: nat, at: nat)
    | CallSpeed(speed: nat)
    | CallItemProgress(id: string, percentage: nat)
    | CallSubPercentage(percentage: nat)
    | CallMessage(kind: MessageKind)
    | CallAllowCancel(allow: bool)
    | CallFiles(id: string, filelist: string)
    | CallData(number: nat)
    | CallSimultaneous(simultaneous: bool)
    | CallError(code: ErrorCode)
    | CallExit(exit: Exit)
    | CallFinished
    | CallErrorTimer
    | CallFinishTimer
    | CallStartRole(role: Role, at: nat)
    | CallSetRole(role: Role, at: nat)
    | CallReset(at: nat)

  function Do(b: Backend, c: Call): Backend {
    match c
    case CallPackage(info, id, summary) => PackageCall(b, info, id, summary)
    case CallStatus(status) => SetStatus(b, status)
    case CallPercentage(percentage, now) => SetPercentage(b, percentage, now)
    case CallSpeed(speed) => SetSpeed(b, speed)
    case CallItemProgress(id, percentage) => SetItemProgress(b, id, percentage)
    case CallSubPercentage(percentage) => SetSubPercentage(b, percentage)
    case CallMessage(kind) => Message(b, kind)
    case CallAllowCancel(allow) => SetAllowCancel(b, allow)
    case CallFiles(id, filelist) => Files(b, id, filelist)
    case CallData(number) => Data(b, number)
    case CallSimultaneous(simultaneous) => SetSimultaneous(b, simultaneous)
    case CallError(code) => Error(b, code)
    case CallExit(exit) => SetExit(b, exit)
    case CallFinished => FinishedCall(b)
    case CallErrorTimer => ErrorTimeout(b)
    case CallFinishTimer => FinishTimeout(b)
    case CallStartRole(role, now) => StartRole(b, role, now)
    case CallSetRole(role, now) => SetRole(b, role, now)
    case CallReset(now) => ResetCall(b, now)
  }

  function DoAll(b: Backend, calls: seq<Call>): Backend
    decreases |calls|
  {
    if calls == [] then b else DoAll(Do(b, calls[0]), calls[1..])
  }
}
