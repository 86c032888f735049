/** The backend object: every method updates the fields in place and emits signals, and does to the
    object as a whole what the function of the same name in BackendModel says. */
module BackendObject {
  import opened Shared
  import opened Text
  import opened Packages
  import RemainingTime
  import Estimator
  import opened BackendModel
  import opened BackendProofs

  lemma {:induction false} PackageShape(b: Backend, info: Info, id: string, summary: Option<string>)
    requires ValidId(id)
    ensures var item := ItemOf(b, info, id, summary);
            && (item.info == InfoFinished <==> info == InfoFinished)
            && BackendModel.PackageCall(b, info, id, summary)
               == if b.stream.lastPackage == Some(item) then b
                  else
                    var b1 := if info != InfoFinished then BackendModel.EmulateFinishedForPackage(b, item) else b;
                    BackendModel.SendPackage(Remember(b1, item), item)
  {
  }

  lemma {:induction false} ErrorShape(b: Backend, code: ErrorCode)
    requires !b.life.setError
    ensures BackendModel.Error(b, code)
         == Backend(
              Life(b.life.finished, true, true, b.life.finishTimer,
                   if b.life.exit == ExitUnknown then ExitFor(code) else b.life.exit),
              b.stream, b.progress, b.status, b.allowCancel, b.role, b.transactionRole, b.downloadFiles,
              b.trace + [ErrorSignal(code)], b.past)
  {
  }

  class PkBackend {
    var life: Life
    var stream: Stream
    var percentage: nat
    var remaining: nat
    var subpercentage: nat
    var speed: nat
    const useTime: bool
    const time: Estimator.Time
    var status: Status
    var allowCancel: Hint
    var role: Role
    var transactionRole: Role
    var downloadFiles: nat
    ghost var trace: seq<Signal>
    ghost var past: seq<seq<Signal>>

    ghost function View(): Backend
      reads this, time
    {
      Backend(
        life, stream,
        Progress(percentage, remaining, subpercentage, speed, useTime, time.View()),
        status, allowCancel, role, transactionRole, downloadFiles, trace, past)
    }

    /** The limits of the estimator are never changed by the backend. */
    ghost predicate Valid()
      reads this, time
    {
      time.averageMin >= 1
    }

    constructor (useTime: bool, now: nat)
      ensures Valid() && fresh(time)
      ensures View() == NewEpoch(false, useTime, now, [])
    {
      this.useTime := useTime;
      time := new Estimator.Time(now);
      life := Life(false, false, false, false, ExitUnknown);
      stream := Stream(false, false, None, []);
      percentage, remaining, subpercentage, speed := PERCENTAGE_DEFAULT, 0, PERCENTAGE_DEFAULT, 0;
      status, allowCancel, role, transactionRole := StatusUnknown, HintUnset, RoleUnknown, RoleUnknown;
      downloadFiles, trace, past := 0, [], [];
    }

    // ----- progress -----

    method SetPercentage(percentage: nat, now: nat)
      requires Valid()
      modifies this, time
      ensures Valid() && View() == BackendModel.SetPercentage(old(View()), percentage, now)
    {
      if life.setError {
        return;
      }
      if this.percentage == percentage {
        return;
      }
      if percentage > PERCENTAGE_INVALID {
        Message(BackendError);
        return;
      }
      if percentage < 100 && this.percentage < 100 && percentage < this.percentage {
        Message(BackendError);
        return;
      }
      this.percentage := percentage;
      trace := trace + [PercentageNotify(percentage)];
      if percentage != PERCENTAGE_INVALID {
        var _ := time.AddData(percentage, now);
        var left := time.GetRemaining();
        if useTime {
          remaining := left.value;
        }
        trace := trace + [RemainingNotify(remaining)];
      }
    }

    method SetSpeed(speed: nat)
      modifies this`speed, this`trace
      ensures View() == BackendModel.SetSpeed(old(View()), speed)
    {
      if life.setError || this.speed == speed {
        return;
      }
      this.speed := speed;
      trace := trace + [SpeedNotify(speed)];
    }

    method SetItemProgress(id: string, percentage: nat)
      modifies this`trace
      ensures View() == BackendModel.SetItemProgress(old(View()), id, percentage)
    {
      if life.setError {
        return;
      }
      if percentage > 100 && percentage != PERCENTAGE_INVALID {
        return;
      }
      trace := trace + [ItemProgressSignal(id, percentage)];
    }

    method SetSubPercentage(percentage: nat)
      modifies this`subpercentage, this`trace
      ensures View() == BackendModel.SetSubPercentage(old(View()), percentage)
    {
      if life.setError || subpercentage == percentage {
        return;
      }
      if percentage > 100 && percentage != PERCENTAGE_INVALID {
        return;
      }
      subpercentage := percentage;
      trace := trace + [SubPercentageNotify(percentage)];
    }

    // ----- messages, status and data -----

    method Message(kind: MessageKind)
      modifies this`trace
      ensures View() == BackendModel.Message(old(View()), kind)
    {
      if life.setError && kind != BackendError {
        return;
      }
      if kind == UntrustedPackage {
        return;
      }
      trace := trace + [MessageSignal(kind)];
    }

    /** A status that follows the setup without a running status in between gets one. */
    method EmulateRunning(status: Status)
      modifies this`trace
      ensures var b := old(View());
              View() == if status != StatusRunning && status != StatusSetup && b.status == StatusSetup
                        then Emit(b, StatusChanged(StatusRunning)) else b
    {
      if status != StatusRunning && status != StatusSetup {
        if this.status == StatusSetup {
          trace := trace + [StatusChanged(StatusRunning)];
        }
      }
    }

    method SetStatus(status: Status)
      modifies this`status, this`trace
      ensures View() == BackendModel.SetStatus(old(View()), status)
    {
      if this.status == status {
        return;
      }
      if life.setError && status != StatusFinished {
        return;
      }
      if status == StatusWait {
        Message(BackendError);
        return;
      }
      EmulateRunning(status);
      ghost var b := View();
      this.status := status;
      trace := trace + [StatusChanged(status)];
      assert View() == Emit(b.(status := status), StatusChanged(status));
    }

    method SetAllowCancel(allow: bool)
      modifies this`allowCancel, this`trace
      ensures View() == BackendModel.SetAllowCancel(old(View()), allow)
    {
      if life.setError && allow {
        return;
      }
      var hint := if allow then HintTrue else HintFalse;
      if allowCancel == hint {
        return;
      }
      trace := trace + [AllowCancelSignal(allow)];
      allowCancel := hint;
    }

    method Files(id: string, filelist: string)
      modifies this`downloadFiles, this`trace
      ensures View() == BackendModel.Files(old(View()), id, filelist)
    {
      if life.setError || !ValidId(id) {
        return;
      }
      trace := trace + [FilesSignal(id, Split(filelist, ';'))];
      downloadFiles := downloadFiles + 1;
    }

    // ----- packages -----

    method SetSimultaneous(simultaneous: bool)
      modifies this`stream
      ensures View() == BackendModel.SetSimultaneous(old(View()), simultaneous)
    {
      stream := stream.(simultaneous := simultaneous);
    }

    method EmulateFinished()
      modifies this`stream, this`status, this`trace
      ensures View() == BackendModel.EmulateFinished(old(View()))
      decreases 1
    {
      if stream.simultaneous {
        return;
      }
      if stream.lastPackage.None? {
        return;
      }
      var item := stream.lastPackage.value;
      if Active(item.info) {
        PackageCall(InfoFinished, item.id, item.summary);
      }
    }

    method EmulateFinishedForPackage(item: Package)
      modifies this`stream, this`status, this`trace
      ensures View() == BackendModel.EmulateFinishedForPackage(old(View()), item)
      decreases 2
    {
      if stream.simultaneous {
        return;
      }
      if stream.lastPackage.None? {
        return;
      }
      if stream.lastPackage.value.id == item.id {
        return;
      }
      EmulateFinished();
    }

    /** What a simulation reports as available or installed is what it would do. */
    method FixUp(info: Info) returns (shown: Info)
      ensures shown == SimulatedInfo(transactionRole, info)
    {
      shown := info;
      if Simulates(transactionRole) {
        if shown == Available {
          shown := Installing;
        } else if shown == Installed {
          shown := Removing;
        }
      }
    }

    method PackageCall(info: Info, id: string, summary: Option<string>)
      modifies this`stream, this`status, this`trace
      ensures View() == BackendModel.PackageCall(old(View()), info, id, summary)
      decreases if info == InfoFinished then 0 else 3
    {
      if !ValidId(id) {
        return;
      }
      var shown := FixUp(info);
      var item := Package(shown, id, SafeSummary(summary));
      ghost var b := View();
      assert item == ItemOf(b, info, id, summary);
      PackageShape(b, info, id, summary);
      if stream.lastPackage == Some(item) {
        return;
      }
      if shown != InfoFinished {
        EmulateFinishedForPackage(item);
      }
      ghost var b1 := View();
      stream := stream.(lastPackage := Some(item));
      assert View() == Remember(b1, item);
      SendPackage(item);
    }

    /** The second half of a package call. */
    method SendPackage(item: Package)
      modifies this`stream, this`status, this`trace
      ensures View() == BackendModel.SendPackage(old(View()), item)
    {
      if life.setError {
        return;
      }
      if !stream.simultaneous {
        var status := StatusFor(item.info);
        if status.Some? {
          SetStatus(status.value);
        }
      }
      stream := stream.(hasSentPackage := true);
      trace := trace + [PackageSignal(item)];
      if item.info != InfoFinished {
        stream := stream.(results := stream.results + [item]);
      }
    }

    // ----- errors and the end of a transaction -----

    method SetExitCode(exit: Exit)
      modifies this`life
      ensures View() == BackendModel.SetExit(old(View()), exit)
    {
      if life.exit != ExitUnknown {
        return;
      }
      life := life.(exit := exit);
    }

    /** The last write comes too late to count. */
    method SetExitForError(code: ErrorCode)
      modifies this`life
      ensures life == old(life).(exit := if old(life).exit == ExitUnknown then ExitFor(code) else old(life).exit)
    {
      if NeedsUntrusted(code) {
        SetExitCode(NeedUntrusted);
      } else if code == PriorityCancelled {
        SetExitCode(CancelledPriority);
      } else {
        SetExitCode(Failed);
      }
      if code == UnfinishedTransaction {
        SetExitCode(RepairRequired);
      }
    }

    method ErrorCode(code: ErrorCode)
      modifies this`life, this`trace
      ensures View() == BackendModel.Error(old(View()), code)
    {
      if life.setError {
        return;
      }
      ghost var b := View();
      life := life.(setError := true, errorTimer := true);
      SetExitForError(code);
      trace := trace + [ErrorSignal(code)];
      ErrorShape(b, code);
    }

    method FinishedDelay()
      modifies this`life, this`trace
      ensures View() == BackendModel.FinishedDelay(old(View()))
    {
      if life.exit == ExitUnknown {
        SetExitCode(Success);
      }
      trace := trace + [FinishedSignal(life.exit)];
      life := life.(finishTimer := false);
    }

    method Complain(missing: bool)
      modifies this`trace
      ensures View() == BackendModel.Complain(old(View()), missing)
    {
      if missing && !life.setError {
        Message(BackendError);
      }
    }

    method ClearErrorTimeout()
      modifies this`life
      ensures life == old(life).(errorTimer := false)
    {
      if life.errorTimer {
        life := life.(errorTimer := false);
      }
    }

    /** The first part of a finish: complaints, and the error timer is cleared. */
    method FinishComplaints()
      modifies this`life, this`trace
      ensures View() == FinishMessages(old(View()))
    {
      ghost var b := View();
      Complain(!stream.hasSentPackage
               && (role == InstallPackages || role == RemovePackages || role == UpdatePackages));
      ghost var b1 := View();
      assert b1 == BackendModel.Complain(b, !b.stream.hasSentPackage && ShouldSendPackages(b.role));
      Complain(role == DownloadPackages && downloadFiles == 0);
      ghost var b2 := View();
      ClearErrorTimeout();
      assert View() == ClearErrorTimer(b2);
      Complain(status == StatusSetup);
    }

    method Finished()
      modifies this
      ensures View() == FinishedCall(old(View()))
    {
      if life.finished {
        return;
      }
      FinishComplaints();
      EmulateFinished();
      SetAllowCancel(false);
      SetStatus(StatusFinished);
      life := life.(finished := true, finishTimer := true);
    }

    /** The callback of the error timer. */
    method ErrorTimeoutDelayCb()
      requires life.errorTimer
      modifies this
      ensures View() == ErrorTimeout(old(View()))
    {
      if !life.finished {
        trace := trace + [MessageSignal(BackendError)];
        Finished();
      }
      life := life.(errorTimer := false);
    }

    method NotImplementedYet()
      modifies this
      ensures View() == BackendModel.NotImplementedYet(old(View()))
    {
      ErrorCode(NotSupported);
      FinishedDelay();
    }

    // ----- roles and epochs -----

    method SetRoleInternal(role: Role, now: nat)
      requires Valid()
      modifies this, time
      ensures Valid() && View() == StartRole(old(View()), role, now)
    {
      if this.role != RoleUnknown && this.role != role {
        return;
      }
      time.Reset(now);
      this.role := role;
      status := StatusWait;
      trace := trace + [StatusChanged(status)];
    }

    method SetRole(role: Role, now: nat)
      requires Valid()
      modifies this, time
      ensures Valid() && View() == BackendModel.SetRole(old(View()), role, now)
    {
      transactionRole := role;
      SetRoleInternal(role, now);
    }

    /** A finish that waits for its grace time is delivered now. */
    method FlushFinished()
      modifies this`life, this`trace
      ensures View() == FlushFinish(old(View()))
      ensures !life.finishTimer
    {
      if life.finishTimer {
        FinishedDelay();
      }
    }

    method ClearProgress(now: nat)
      modifies this`remaining, this`percentage, this`subpercentage, this`speed, time
      ensures Valid() && View().progress
           == Progress(PERCENTAGE_DEFAULT, 0, PERCENTAGE_DEFAULT, 0, useTime, RemainingTime.Reset(now))
    {
      remaining, percentage, subpercentage, speed := 0, PERCENTAGE_DEFAULT, PERCENTAGE_DEFAULT, 0;
      time.Reset(now);
    }

    method ClearLife()
      requires !life.finishTimer && !life.errorTimer
      modifies this`life, this`stream
      ensures life == Life(false, false, false, false, ExitUnknown)
      ensures stream == Stream(old(stream.simultaneous), false, None, [])
    {
      life := life.(setError := false, finished := false, exit := ExitUnknown);
      stream := stream.(lastPackage := None, hasSentPackage := false, results := []);
    }

    method ClearFields(now: nat)
      requires !life.finishTimer && !life.errorTimer
      modifies this, time
      ensures Valid()
      ensures View() == NewEpoch(old(stream.simultaneous), useTime, now, old(past) + [old(trace)])
    {
      ClearLife();
      downloadFiles, allowCancel, status := 0, HintUnset, StatusUnknown;
      role, transactionRole := RoleUnknown, RoleUnknown;
      ClearProgress(now);
      past := past + [trace];
      trace := [];
    }

    method Reset(now: nat) returns (ok: bool)
      requires Valid()
      modifies this, time
      ensures Valid() && View() == ResetCall(old(View()), now)
      ensures ok <==> old(status) != StatusRunning
    {
      if status == StatusRunning {
        return false;
      }
      FlushFinished();
      if life.errorTimer {
        life := life.(errorTimer := false);
      }
      ClearFields(now);
      return true;
    }

    /** The other result signals. */
    method Data(number: nat)
      modifies this`trace
      ensures View() == BackendModel.Data(old(View()), number)
    {
      if life.setError {
        return;
      }
      trace := trace + [DataSignal(number)];
    }

    /** The calls that neither end a transaction nor begin one. */
    method Work(c: Call)
      requires Valid() && (IsQuietCall(c) || c.CallPackage? || c.CallSimultaneous?)
      requires !c.CallStartRole? && !c.CallSetRole?
      modifies this, time
      ensures Valid() && View() == Do(old(View()), c)
    {
      match c
      case CallPackage(info, id, summary) => PackageCall(info, id, summary);
      case CallStatus(status) => SetStatus(status);
      case CallPercentage(percentage, now) => SetPercentage(percentage, now);
      case CallSpeed(speed) => SetSpeed(speed);
      case CallItemProgress(id, percentage) => SetItemProgress(id, percentage);
      case CallSubPercentage(percentage) => SetSubPercentage(percentage);
      case CallMessage(kind) => Message(kind);
      case CallAllowCancel(allow) => SetAllowCancel(allow);
      case CallFiles(id, filelist) => Files(id, filelist);
      case CallData(number) => Data(number);
      case CallSimultaneous(simultaneous) => SetSimultaneous(simultaneous);
    }

    /** The callbacks of the two timers, if they are pending. */
    method TimerFires(error: bool)
      requires Valid()
      modifies this, time
      ensures Valid() && View() == if error then ErrorTimeout(old(View())) else FinishTimeout(old(View()))
    {
      if error && life.errorTimer {
        ErrorTimeoutDelayCb();
      } else if !error && life.finishTimer {
        FinishedDelay();
      }
    }

    /** Any call, timers included: a run of the object is a run of the model. */
    method Perform(c: Call)
      requires Valid()
      modifies this, time
      ensures Valid() && View() == Do(old(View()), c)
    {
      match c
      case CallError(code) => ErrorCode(code);
      case CallExit(exit) => SetExitCode(exit);
      case CallFinished => Finished();
      case CallErrorTimer => TimerFires(true);
      case CallFinishTimer => TimerFires(false);
      case CallStartRole(role, now) => SetRoleInternal(role, now);
      case CallSetRole(role, now) => SetRole(role, now);
      case CallReset(now) => var _ := Reset(now);
      case _ => Work(c);
    }
  }
}
