/** What clients are told about the status and about cancelling, over every sequence of calls. */
module BackendAnnouncements {
  import opened Shared
  import opened Packages
  import opened BackendModel

  function StatusesIn(t: seq<Signal>): seq<Status> {
    if t == [] then []
    else StatusesIn(t[..|t| - 1]) + (if t[|t| - 1].StatusChanged? then [t[|t| - 1].status] else [])
  }

  function AllowsIn(t: seq<Signal>): seq<bool> {
    if t == [] then []
    else AllowsIn(t[..|t| - 1]) + (if t[|t| - 1].AllowCancelSignal? then [t[|t| - 1].allow] else [])
  }

  lemma {:induction false} TraceStep(t: seq<Signal>, s: Signal)
    ensures StatusesIn(t + [s]) == StatusesIn(t) + (if s.StatusChanged? then [s.status] else [])
    ensures AllowsIn(t + [s]) == AllowsIn(t) + (if s.AllowCancelSignal? then [s.allow] else [])
  {
    assert (t + [s])[..|t|] == t;
  }

  /** Only a new role repeats a status, with another wait; and setup never turns into work without
      running in between. */
  predicate Proper(ss: seq<Status>) {
    && (forall i :: 0 <= i < |ss| - 1 && ss[i] == ss[i + 1] ==> ss[i] == StatusWait)
    && (forall i :: 0 <= i < |ss| - 1 && ss[i] == StatusSetup ==> ss[i + 1] == StatusRunning || ss[i + 1] == StatusWait)
  }

  predicate Alternating(allows: seq<bool>) { forall i :: 0 <= i < |allows| - 1 ==> allows[i] != allows[i + 1] }

  function HintFor(allow: bool): Hint { if allow then HintTrue else HintFalse }

  /** The fields are what was announced last. */
  predicate Announced(b: Backend) {
    var ss, allows := StatusesIn(b.trace), AllowsIn(b.trace);
    && Proper(ss) && b.status == (if ss == [] then StatusUnknown else ss[|ss| - 1])
    && Alternating(allows) && b.allowCancel == (if allows == [] then HintUnset else HintFor(allows[|allows| - 1]))
  }

  // ----- calls that announce nothing -----

  predicate Unmentioned(b: Backend, r: Backend) {
    && r.status == b.status && r.allowCancel == b.allowCancel
    && StatusesIn(r.trace) == StatusesIn(b.trace) && AllowsIn(r.trace) == AllowsIn(b.trace)
  }

  lemma {:induction false} EmitUnmentioned(b: Backend, s: Signal)
    requires !s.StatusChanged? && !s.AllowCancelSignal?
    ensures Unmentioned(b, Emit(b, s))
  {
    TraceStep(b.trace, s);
  }

  lemma {:induction false} UnmentionedKeeps(b: Backend, r: Backend)
    requires Announced(b) && Unmentioned(b, r)
    ensures Announced(r)
  {
  }

  lemma {:induction false} PercentageUnmentioned(b: Backend, percentage: nat, now: nat)
    ensures Unmentioned(b, SetPercentage(b, percentage, now))
  {
    var r := SetPercentage(b, percentage, now);
    if r != b && r != Message(b, BackendError) {
      TraceStep(b.trace, PercentageNotify(percentage));
      TraceStep(b.trace + [PercentageNotify(percentage)], RemainingNotify(r.progress.remaining));
    } else {
      EmitUnmentioned(b, MessageSignal(BackendError));
    }
  }

  predicate Mentions(c: Call) {
    c.CallPackage? || c.CallStatus? || c.CallAllowCancel? || c.CallFinished? || c.CallErrorTimer? ||
    c.CallStartRole? || c.CallSetRole? || c.CallReset?
  }

  lemma {:induction false} OthersUnmentioned(b: Backend, c: Call)
    requires !Mentions(c)
    ensures Unmentioned(b, Do(b, c))
  {
    if c.CallPercentage? {
      PercentageUnmentioned(b, c.percentage, c.at);
    } else {
      OneSignalUnmentioned(b, c);
    }
  }

  lemma {:induction false} OneSignalUnmentioned(b: Backend, c: Call)
    requires !Mentions(c) && !c.CallPercentage?
    ensures Unmentioned(b, Do(b, c))
  {
    var r := Do(b, c);
    if r.trace != b.trace {
      assert |r.trace| == |b.trace| + 1;
      var s := r.trace[|b.trace|];
      assert r.trace == b.trace + [s];
      TraceStep(b.trace, s);
    }
  }

  // ----- calls that announce something -----

  function Say(b: Backend, status: Status): Backend { Emit(b.(status := status), StatusChanged(status)) }

  lemma {:induction false} SayAnnounced(b: Backend, status: Status)
    requires Announced(b) && (b.status == status ==> status == StatusWait)
    requires b.status == StatusSetup ==> status == StatusRunning || status == StatusWait
    ensures Announced(Say(b, status))
  {
    TraceStep(b.trace, StatusChanged(status));
  }

  lemma {:induction false} StatusAnnounced(b: Backend, status: Status)
    requires Announced(b)
    ensures Announced(SetStatus(b, status))
  {
    var r := SetStatus(b, status);
    if r == b {
    } else if status == StatusWait {
      EmitUnmentioned(b, MessageSignal(BackendError));
      UnmentionedKeeps(b, r);
    } else if b.status == StatusSetup && status != StatusRunning {
      SayAnnounced(b, StatusRunning);
      SayAnnounced(Say(b, StatusRunning), status);
      assert r == Say(Say(b, StatusRunning), status);
    } else {
      SayAnnounced(b, status);
      assert r == Say(b, status);
    }
  }

  lemma {:induction false} AllowCancelAnnounced(b: Backend, allow: bool)
    requires Announced(b)
    ensures Announced(SetAllowCancel(b, allow))
  {
    TraceStep(b.trace, AllowCancelSignal(allow));
  }

  lemma {:induction false} SendAnnounced(b: Backend, item: Package)
    requires Announced(b)
    ensures Announced(SendPackage(b, item))
  {
    var r := SendPackage(b, item);
    if r != b {
      var status := if b.stream.simultaneous then None else StatusFor(item.info);
      var b1 := if status.Some? then SetStatus(b, status.value) else b;
      if status.Some? { StatusAnnounced(b, status.value); }
      EmitUnmentioned(b1, PackageSignal(item));
      UnmentionedKeeps(b1, r);
    }
  }

  lemma {:induction false} ItemAnnounced(b: Backend, item: Package)
    requires Announced(b)
    ensures Announced(SendPackage(Remember(b, item), item))
  {
    UnmentionedKeeps(b, Remember(b, item));
    SendAnnounced(Remember(b, item), item);
  }

  lemma {:induction false} FinishMarkAnnounced(b: Backend, id: string, summary: Option<string>)
    requires Announced(b)
    ensures Announced(PackageCall(b, InfoFinished, id, summary))
  {
    var item := ItemOf(b, InfoFinished, id, summary);
    if ValidId(id) && b.stream.lastPackage != Some(item) {
      ItemAnnounced(b, item);
      assert PackageCall(b, InfoFinished, id, summary) == SendPackage(Remember(b, item), item);
    }
  }

  lemma {:induction false} EmulateAnnounced(b: Backend)
    requires Announced(b)
    ensures Announced(EmulateFinished(b))
  {
    if b.stream.lastPackage.Some? {
      FinishMarkAnnounced(b, b.stream.lastPackage.value.id, b.stream.lastPackage.value.summary);
    }
  }

  lemma {:induction false} PackageAnnounced(b: Backend, info: Info, id: string, summary: Option<string>)
    requires Announced(b)
    ensures Announced(PackageCall(b, info, id, summary))
  {
    var item := ItemOf(b, info, id, summary);
    if ValidId(id) && b.stream.lastPackage != Some(item) {
      var b1 := if info != InfoFinished then EmulateFinishedForPackage(b, item) else b;
      assert b1 == b || b1 == EmulateFinished(b);
      EmulateAnnounced(b);
      ItemAnnounced(b1, item);
      assert PackageCall(b, info, id, summary) == SendPackage(Remember(b1, item), item);
    }
  }

  lemma {:induction false} ComplainUnmentioned(b: Backend, missing: bool)
    ensures Unmentioned(b, Complain(b, missing))
  {
    EmitUnmentioned(b, MessageSignal(BackendError));
  }

  lemma {:induction false} FinishMessagesUnmentioned(b: Backend)
    ensures Unmentioned(b, FinishMessages(b))
  {
    var b1 := Complain(b, !b.stream.hasSentPackage && ShouldSendPackages(b.role));
    ComplainUnmentioned(b, !b.stream.hasSentPackage && ShouldSendPackages(b.role));
    var b2 := Complain(b1, b1.role == DownloadPackages && b1.downloadFiles == 0);
    ComplainUnmentioned(b1, b1.role == DownloadPackages && b1.downloadFiles == 0);
    ComplainUnmentioned(ClearErrorTimer(b2), b2.status == StatusSetup);
  }

  /** The last steps of an accepted finish: cancelling is withdrawn, and the status is finished. */
  lemma {:induction false} GoodbyeAnnounced(b: Backend)
    requires Announced(b)
    ensures var r := MarkFinished(SetStatus(SetAllowCancel(b, false), StatusFinished));
            Announced(r) && r.status == StatusFinished && r.allowCancel == HintFalse
  {
    var b1 := SetAllowCancel(b, false);
    var b2 := SetStatus(b1, StatusFinished);
    AllowCancelAnnounced(b, false);
    StatusAnnounced(b1, StatusFinished);
    UnmentionedKeeps(b2, MarkFinished(b2));
  }

  lemma {:induction false} FinishedAnnounced(b: Backend)
    requires Announced(b)
    ensures Announced(FinishedCall(b))
    ensures !b.life.finished ==> FinishedCall(b).status == StatusFinished && FinishedCall(b).allowCancel == HintFalse
  {
    if !b.life.finished {
      var b1 := FinishMessages(b);
      FinishMessagesUnmentioned(b);
      UnmentionedKeeps(b, b1);
      EmulateAnnounced(b1);
      GoodbyeAnnounced(EmulateFinished(b1));
    }
  }

  lemma {:induction false} StartRoleAnnounced(b: Backend, role: Role, now: nat)
    requires Announced(b)
    ensures Announced(StartRole(b, role, now))
  {
    TraceStep(b.trace, StatusChanged(StatusWait));
  }

  lemma {:induction false} ErrorTimeoutAnnounced(b: Backend)
    requires Announced(b)
    ensures Announced(ErrorTimeout(b))
  {
    var b1 := Emit(b, MessageSignal(BackendError));
    EmitUnmentioned(b, MessageSignal(BackendError));
    UnmentionedKeeps(b, b1);
    FinishedAnnounced(b1);
  }

  lemma {:induction false} DoAnnounced(b: Backend, c: Call)
    requires Announced(b)
    ensures Announced(Do(b, c))
  {
    match c
    case CallPackage(info, id, summary) => PackageAnnounced(b, info, id, summary);
    case CallStatus(status) => StatusAnnounced(b, status);
    case CallAllowCancel(allow) => AllowCancelAnnounced(b, allow);
    case CallFinished => FinishedAnnounced(b);
    case CallErrorTimer => ErrorTimeoutAnnounced(b);
    case CallStartRole(role, now) => StartRoleAnnounced(b, role, now);
    case CallSetRole(role, now) => StartRoleAnnounced(b.(transactionRole := role), role, now);
    case CallReset(_) =>
    case _ =>
      OthersUnmentioned(b, c);
      UnmentionedKeeps(b, Do(b, c));
  }

  /** In every reachable state a client that listens knows the status and whether it may cancel, was told
      nothing twice, and never saw work begin directly after setup. */
  lemma {:induction false} AlwaysAnnounced(b: Backend, calls: seq<Call>)
    requires Announced(b)
    ensures Announced(DoAll(b, calls))
    decreases |calls|
  {
    if calls != [] {
      DoAnnounced(b, calls[0]);
      AlwaysAnnounced(Do(b, calls[0]), calls[1..]);
    }
  }

  lemma {:induction false} NewEpochAnnounced(simultaneous: bool, useTime: bool, now: nat, past: seq<seq<Signal>>)
    ensures Announced(NewEpoch(simultaneous, useTime, now, past))
  {
  }
}
