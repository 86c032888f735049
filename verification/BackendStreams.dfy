/** What the backend's packages look like over every sequence of calls. */
module BackendStreams {
  import opened Packages
  import opened BackendModel
  import opened BackendProofs

  // ----- packages are finished before others begin -----

  predicate Orderly(b: Backend) {
    !b.stream.simultaneous && Bracketed(PackagesIn(b.trace)) && PastOrderly(b.past)
  }

  predicate PastOrderly(past: seq<seq<Signal>>) { forall t :: t in past ==> Bracketed(PackagesIn(t)) }

  lemma {:induction false} BracketGrows(b: Backend, item: Package)
    requires PackageInv(b) && !b.life.setError && Orderly(b)
    ensures Bracketed(PackagesIn(b.trace) + NewPackages(b, item))
  {
  }

  lemma {:induction false} PackageKeepsOrder(b: Backend, info: Info, id: string, summary: Option<string>)
    requires PackageInv(b) && Orderly(b)
    ensures Orderly(PackageCall(b, info, id, summary))
  {
    var r := PackageCall(b, info, id, summary);
    if r == b {
    } else if b.life.setError {
      PackageAfterError(b, info, id, summary);
    } else {
      PackageEffect(b, info, id, summary);
      BracketGrows(b, ItemOf(b, info, id, summary));
    }
  }

  lemma {:induction false} FinishedKeepsOrder(b: Backend)
    requires PackageInv(b) && Orderly(b)
    ensures Orderly(FinishedCall(b))
  {
    if !b.life.finished {
      FinishMessagesEffect(b);
      FinishedEffect(b);
      var b0 := FinishMessages(b);
      if EmulateFinished(b0) != b0 {
        PackageKeepsOrder(b0, InfoFinished, b0.stream.lastPackage.value.id, b0.stream.lastPackage.value.summary);
      }
    }
  }

  lemma {:induction false} SamePackagesKeepOrder(b: Backend, r: Backend)
    requires Orderly(b) && !r.stream.simultaneous && PackagesIn(r.trace) == PackagesIn(b.trace) && r.past == b.past
    ensures Orderly(r)
  {
  }

  lemma {:induction false} ResetKeepsOrder(b: Backend, now: nat)
    requires Orderly(b)
    ensures Orderly(ResetCall(b, now))
  {
    FinishedDelayEffect(b);
    assert PackagesIn(FlushFinish(b).trace) == PackagesIn(b.trace);
  }

  lemma {:induction false} ErrorKeepsOrder(b: Backend, code: ErrorCode)
    requires Orderly(b)
    ensures Orderly(Error(b, code))
  {
    if !b.life.setError {
      ErrorEffect(b, code);
      SamePackagesKeepOrder(b, Error(b, code));
    }
  }

  lemma {:induction false} ErrorTimeoutKeepsOrder(b: Backend)
    requires PackageInv(b) && Orderly(b)
    ensures Orderly(ErrorTimeout(b))
  {
    if !b.life.errorTimer {
      assert ErrorTimeout(b) == b;
    } else if b.life.finished {
      SamePackagesKeepOrder(b, ClearErrorTimer(b));
    } else {
      var b1 := Emit(b, MessageSignal(BackendError));
      EmitQuiet(b, MessageSignal(BackendError));
      SamePackagesKeepOrder(b, b1);
      FinishedKeepsOrder(b1);
      SamePackagesKeepOrder(FinishedCall(b1), ClearErrorTimer(FinishedCall(b1)));
    }
  }

  lemma {:induction false} FinishTimeoutKeepsOrder(b: Backend)
    requires Orderly(b)
    ensures Orderly(FinishTimeout(b))
  {
    FinishedDelayEffect(b);
    SamePackagesKeepOrder(b, FinishedDelay(b));
  }

  lemma {:induction false} EndKeepsOrder(b: Backend, c: Call)
    requires Inv(b) && Orderly(b) && (c.CallError? || c.CallFinished? || c.CallErrorTimer? || c.CallFinishTimer?)
    ensures Orderly(Do(b, c))
  {
    match c
    case CallError(code) => ErrorKeepsOrder(b, code);
    case CallFinished => FinishedKeepsOrder(b);
    case CallErrorTimer => ErrorTimeoutKeepsOrder(b);
    case CallFinishTimer => FinishTimeoutKeepsOrder(b);
  }

  lemma {:induction false} DoKeepsOrder(b: Backend, c: Call)
    requires Inv(b) && Orderly(b) && c != CallSimultaneous(true)
    ensures Orderly(Do(b, c))
  {
    if IsQuietCall(c) {
      QuietCall(b, c);
      SamePackagesKeepOrder(b, Do(b, c));
    } else {
      match c
      case CallPackage(info, id, summary) => PackageKeepsOrder(b, info, id, summary);
      case CallSimultaneous(_) => SamePackagesKeepOrder(b, Do(b, c));
      case CallExit(_) => SamePackagesKeepOrder(b, Do(b, c));
      case CallReset(now) => ResetKeepsOrder(b, now);
      case _ => EndKeepsOrder(b, c);
    }
  }

  /** A backend that never works on packages in parallel is seen to finish each before the next, in
      every epoch. */
  lemma {:induction false} AlwaysOrderly(b: Backend, calls: seq<Call>)
    requires Inv(b) && Orderly(b) && CallSimultaneous(true) !in calls
    ensures Orderly(DoAll(b, calls))
    decreases |calls|
  {
    if calls != [] {
      DoKeepsInv(b, calls[0]);
      DoKeepsOrder(b, calls[0]);
      AlwaysOrderly(Do(b, calls[0]), calls[1..]);
    }
  }

  /** An accepted finish leaves no package active, unless an error came first. */
  lemma {:induction false} FinishCloses(b: Backend)
    requires PackageInv(b) && !b.stream.simultaneous && !b.life.setError && !b.life.finished
    ensures Closed(PackagesIn(FinishedCall(b).trace))
  {
    FinishMessagesEffect(b);
    EmulateCloses(FinishMessages(b));
    FinishedEffect(b);
  }

  // ----- what the clean-up of texts leaves behind -----

  /** The texts are said to be free of line breaks afterwards. They are so exactly when they were before:
      a newline is not among the characters that are replaced. */
  lemma {:induction false} LineBreaksStayExactly(text: string)
    ensures '\n' !in StrSafe(text) <==> '\n' !in text
    ensures '\t' !in StrSafe(text) && '\r' !in StrSafe(text)
    ensures StrSafe(StrSafe(text)) == StrSafe(text)
  {
    var safe := StrSafe(text);
    if '\n' in text {
      var i :| 0 <= i < |text| && text[i] == '\n';
      assert safe[i] == '\n';
    }
    assert forall i :: 0 <= i < |safe| ==> StrSafe(safe)[i] == safe[i];
  }

  /** So a package that went through the backend can be read back from the database exactly when its id
      holds no tab or newline and its summary no newline. */
  lemma {:induction false} StoredPackageExactly(b: Backend, info: Info, id: string, summary: Option<string>)
    ensures Plain(ItemOf(b, info, id, summary)) <==>
              '\t' !in id && '\n' !in id && (summary.Some? ==> '\n' !in summary.value)
  {
    if summary.Some? { LineBreaksStayExactly(summary.value); }
  }
}
