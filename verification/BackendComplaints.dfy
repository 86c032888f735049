/** What a finish complains about, told from the signals of the epoch. */
module BackendComplaints {
  import opened Packages
  import opened BackendModel
  import opened BackendProofs

  /** The number of file lists that were passed on. */
  function FilesIn(t: seq<Signal>): nat {
    if t == [] then 0 else FilesIn(t[..|t| - 1]) + (if t[|t| - 1].FilesSignal? then 1 else 0)
  }

  function MessagesIn(t: seq<Signal>): seq<MessageKind> {
    if t == [] then []
    else MessagesIn(t[..|t| - 1]) + (if t[|t| - 1].MessageSignal? then [t[|t| - 1].kind] else [])
  }

  lemma {:induction false} CountStep(t: seq<Signal>, s: Signal)
    ensures FilesIn(t + [s]) == FilesIn(t) + (if s.FilesSignal? then 1 else 0)
    ensures MessagesIn(t + [s]) == MessagesIn(t) + (if s.MessageSignal? then [s.kind] else [])
  {
    assert (t + [s])[..|t|] == t;
  }

  /** The backend remembers whether packages and how many file lists were passed on. */
  predicate Counted(b: Backend) {
    && (b.stream.hasSentPackage <==> PackagesIn(b.trace) != [])
    && b.downloadFiles == FilesIn(b.trace)
  }

  // ----- calls that pass on neither file lists nor messages -----

  predicate Same(b: Backend, r: Backend) {
    && r.downloadFiles == b.downloadFiles && r.role == b.role
    && FilesIn(r.trace) == FilesIn(b.trace) && MessagesIn(r.trace) == MessagesIn(b.trace)
  }

  lemma {:induction false} EmitSame(b: Backend, s: Signal)
    requires !s.FilesSignal? && !s.MessageSignal?
    ensures Same(b, Emit(b, s))
  {
    CountStep(b.trace, s);
  }

  lemma {:induction false} StatusSame(b: Backend, status: Status)
    requires status != StatusWait
    ensures Same(b, SetStatus(b, status)) && SetStatus(b, status).stream == b.stream
  {
    var r := SetStatus(b, status);
    if r == b {
    } else if status != StatusRunning && status != StatusSetup && b.status == StatusSetup {
      var b1 := Emit(b, StatusChanged(StatusRunning));
      EmitSame(b, StatusChanged(StatusRunning));
      EmitSame(b1.(status := status), StatusChanged(status));
      assert r == Emit(b1.(status := status), StatusChanged(status));
    } else {
      EmitSame(b.(status := status), StatusChanged(status));
      assert r == Emit(b.(status := status), StatusChanged(status));
    }
  }

  lemma {:induction false} AllowCancelSame(b: Backend, allow: bool)
    ensures Same(b, SetAllowCancel(b, allow)) && SetAllowCancel(b, allow).stream == b.stream
  {
    EmitSame(b, AllowCancelSignal(allow));
  }

  lemma {:induction false} SendSame(b: Backend, item: Package)
    ensures var r := SendPackage(b, item);
            && Same(b, r)
            && (if b.life.setError then r == b
                else r.stream.hasSentPackage && PackagesIn(r.trace) == PackagesIn(b.trace) + [item])
  {
    if !b.life.setError {
      var status := if b.stream.simultaneous then None else StatusFor(item.info);
      var b1 := if status.Some? then SetStatus(b, status.value) else b;
      if status.Some? { StatusSame(b, status.value); }
      EmitSame(b1, PackageSignal(item));
      SendEffect(b, item);
      assert SendPackage(b, item).trace == Emit(b1, PackageSignal(item)).trace;
    }
  }

  /** One item is remembered and passed on. */
  lemma {:induction false} ItemSame(b: Backend, item: Package)
    ensures var r := SendPackage(Remember(b, item), item);
            Same(b, r) && (Counted(b) ==> Counted(r)) && r.life.setError == b.life.setError
  {
    SendSame(Remember(b, item), item);
    if !b.life.setError { SendEffect(Remember(b, item), item); }
  }

  lemma {:induction false} EmulateSame(b: Backend)
    ensures var r := EmulateFinished(b);
            Same(b, r) && (Counted(b) ==> Counted(r)) && r.life.setError == b.life.setError
  {
    var r := EmulateFinished(b);
    if r != b {
      var last := b.stream.lastPackage.value;
      var item := ItemOf(b, InfoFinished, last.id, last.summary);
      ItemSame(b, item);
      assert PackageCall(b, InfoFinished, last.id, last.summary) == SendPackage(Remember(b, item), item)
          || PackageCall(b, InfoFinished, last.id, last.summary) == b;
    }
  }

  lemma {:induction false} PackageSame(b: Backend, info: Info, id: string, summary: Option<string>)
    ensures var r := PackageCall(b, info, id, summary); Same(b, r) && (Counted(b) ==> Counted(r))
  {
    var item := ItemOf(b, info, id, summary);
    if ValidId(id) && b.stream.lastPackage != Some(item) {
      var b1 := if info != InfoFinished then EmulateFinishedForPackage(b, item) else b;
      assert b1 == b || b1 == EmulateFinished(b);
      EmulateSame(b);
      ItemSame(b1, item);
      assert PackageCall(b, info, id, summary) == SendPackage(Remember(b1, item), item);
    }
  }

  // ----- the complaints of a finish -----

  function Complaint(c: bool): seq<MessageKind> { if c then [BackendError] else [] }

  lemma {:induction false} ComplainCounts(b: Backend, missing: bool)
    ensures var r := Complain(b, missing);
            && r == b.(trace := r.trace) && FilesIn(r.trace) == FilesIn(b.trace)
            && PackagesIn(r.trace) == PackagesIn(b.trace)
            && MessagesIn(r.trace) == MessagesIn(b.trace) + Complaint(missing && !b.life.setError)
  {
    CountStep(b.trace, MessageSignal(BackendError));
    ComplainQuiet(b, missing);
  }

  /** An accepted finish complains, unless an error came first, about a change of packages that passed on
      none, a download that passed on no files, and a transaction that never left its setup. */
  lemma {:induction false} FinishComplainsExactly(b: Backend)
    requires Counted(b) && !b.life.finished
    ensures var changes := b.role == InstallPackages || b.role == RemovePackages || b.role == UpdatePackages;
            MessagesIn(FinishedCall(b).trace)
            == MessagesIn(b.trace)
               + if b.life.setError then []
                 else Complaint(changes && PackagesIn(b.trace) == [])
                      + Complaint(b.role == DownloadPackages && FilesIn(b.trace) == 0)
                      + Complaint(b.status == StatusSetup)
  {
    MessagesComplainExactly(b);
    var b1 := FinishMessages(b);
    var b2 := EmulateFinished(b1);
    EmulateSame(b1);
    AllowCancelSame(b2, false);
    StatusSame(SetAllowCancel(b2, false), StatusFinished);
  }

  lemma {:induction false} ThreeComplaints(b: Backend, c1: bool, c2: bool, c3: bool)
    ensures var r := Complain(ClearErrorTimer(Complain(Complain(b, c1), c2)), c3);
            && r == b.(life := b.life.(errorTimer := false), trace := r.trace)
            && FilesIn(r.trace) == FilesIn(b.trace) && PackagesIn(r.trace) == PackagesIn(b.trace)
            && MessagesIn(r.trace)
               == MessagesIn(b.trace) + if b.life.setError then [] else Complaint(c1) + Complaint(c2) + Complaint(c3)
  {
    var b1 := Complain(b, c1);
    var b2 := Complain(b1, c2);
    ComplainCounts(b, c1);
    ComplainCounts(b1, c2);
    ComplainCounts(ClearErrorTimer(b2), c3);
    var m, e := MessagesIn(b.trace), b.life.setError;
    Together(m, Complaint(c1 && !e), Complaint(c2 && !e), Complaint(c3 && !e));
    assert MessagesIn(b1.trace) == m + Complaint(c1 && !e);
    assert MessagesIn(b2.trace) == m + Complaint(c1 && !e) + Complaint(c2 && !e);
  }

  lemma {:induction false} Together(m: seq<MessageKind>, a: seq<MessageKind>, b: seq<MessageKind>, c: seq<MessageKind>)
    ensures m + a + b + c == m + (a + b + c)
  {
  }

  lemma {:induction false} MessagesComplainExactly(b: Backend)
    requires Counted(b)
    ensures var changes := b.role == InstallPackages || b.role == RemovePackages || b.role == UpdatePackages;
            var r := FinishMessages(b);
            && Counted(r)
            && MessagesIn(r.trace)
               == MessagesIn(b.trace)
                  + if b.life.setError then []
                    else Complaint(changes && PackagesIn(b.trace) == [])
                         + Complaint(b.role == DownloadPackages && FilesIn(b.trace) == 0)
                         + Complaint(b.status == StatusSetup)
  {
    var c1 := !b.stream.hasSentPackage && ShouldSendPackages(b.role);
    var c2 := b.role == DownloadPackages && b.downloadFiles == 0;
    var c3 := b.status == StatusSetup;
    ThreeComplaints(b, c1, c2, c3);
    ComplainCounts(b, c1);
    ComplainCounts(Complain(b, c1), c2);
    assert FinishMessages(b) == Complain(ClearErrorTimer(Complain(Complain(b, c1), c2)), c3);
  }

  // ----- every run -----

  lemma {:induction false} FinishedCounted(b: Backend)
    requires Counted(b)
    ensures Counted(FinishedCall(b))
  {
    if !b.life.finished {
      MessagesComplainExactly(b);
      var b2 := EmulateFinished(FinishMessages(b));
      EmulateSame(FinishMessages(b));
      AllowCancelSame(b2, false);
      AllowCancelQuiet(b2, false);
      StatusSame(SetAllowCancel(b2, false), StatusFinished);
      StatusQuiet(SetAllowCancel(b2, false), StatusFinished);
    }
  }

  lemma {:induction false} FilesCounted(b: Backend, id: string, filelist: string)
    requires Counted(b)
    ensures Counted(Files(b, id, filelist))
  {
    var s := FilesSignal(id, Text.Split(filelist, ';'));
    CountStep(b.trace, s);
    TraceStep(b.trace, s);
  }

  /** The calls that pass on one signal at most, and no file list. */
  predicate Single(c: Call) {
    c.CallSpeed? || c.CallItemProgress? || c.CallSubPercentage? || c.CallMessage? || c.CallAllowCancel? ||
    c.CallData? || c.CallSimultaneous? || c.CallError? || c.CallExit? || c.CallFinishTimer? ||
    c.CallStartRole? || c.CallSetRole?
  }

  lemma {:induction false} SingleSignal(b: Backend, c: Call)
    requires Single(c)
    ensures var r := Do(b, c);
            && r.downloadFiles == b.downloadFiles && r.stream.hasSentPackage == b.stream.hasSentPackage
            && (r.trace == b.trace
                || (|r.trace| == |b.trace| + 1 && r.trace == b.trace + [r.trace[|b.trace|]]
                    && !r.trace[|b.trace|].FilesSignal? && !r.trace[|b.trace|].PackageSignal?))
  {
  }

  lemma {:induction false} SingleCounted(b: Backend, c: Call)
    requires Counted(b) && Single(c)
    ensures Counted(Do(b, c))
  {
    SingleSignal(b, c);
    var r := Do(b, c);
    if r.trace != b.trace {
      CountStep(b.trace, r.trace[|b.trace|]);
      TraceStep(b.trace, r.trace[|b.trace|]);
    }
  }

  lemma {:induction false} PercentageCounted(b: Backend, percentage: nat, now: nat)
    requires Counted(b)
    ensures Counted(SetPercentage(b, percentage, now))
  {
    PercentageQuiet(b, percentage, now);
    var r := SetPercentage(b, percentage, now);
    if r == b {
    } else if r == Message(b, BackendError) {
      CountStep(b.trace, MessageSignal(BackendError));
    } else {
      CountStep(b.trace, PercentageNotify(percentage));
      CountStep(b.trace + [PercentageNotify(percentage)], RemainingNotify(r.progress.remaining));
    }
  }

  lemma {:induction false} StatusCounted(b: Backend, status: Status)
    requires Counted(b)
    ensures Counted(SetStatus(b, status))
  {
    StatusQuiet(b, status);
    if status == StatusWait { CountStep(b.trace, MessageSignal(BackendError)); } else { StatusSame(b, status); }
  }

  lemma {:induction false} ErrorTimeoutCounted(b: Backend)
    requires Counted(b)
    ensures Counted(ErrorTimeout(b))
  {
    CountStep(b.trace, MessageSignal(BackendError));
    EmitQuiet(b, MessageSignal(BackendError));
    FinishedCounted(Emit(b, MessageSignal(BackendError)));
  }

  lemma {:induction false} DoCounted(b: Backend, c: Call)
    requires Counted(b)
    ensures Counted(Do(b, c))
  {
    match c
    case CallPackage(info, id, summary) => PackageSame(b, info, id, summary);
    case CallStatus(status) => StatusCounted(b, status);
    case CallPercentage(percentage, now) => PercentageCounted(b, percentage, now);
    case CallFiles(id, filelist) => FilesCounted(b, id, filelist);
    case CallFinished => FinishedCounted(b);
    case CallErrorTimer => ErrorTimeoutCounted(b);
    case CallReset(_) =>
    case _ => SingleCounted(b, c);
  }

  /** What a finish complains about is right in every reachable state, because the counts are. */
  lemma {:induction false} AlwaysCounted(b: Backend, calls: seq<Call>)
    requires Counted(b)
    ensures Counted(DoAll(b, calls))
    decreases |calls|
  {
    if calls != [] {
      DoCounted(b, calls[0]);
      AlwaysCounted(Do(b, calls[0]), calls[1..]);
    }
  }

  lemma {:induction false} NewEpochCounted(simultaneous: bool, useTime: bool, now: nat, past: seq<seq<Signal>>)
    ensures Counted(NewEpoch(simultaneous, useTime, now, past))
  {
  }
}
