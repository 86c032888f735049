/** A helper that dies does not leave its transaction hanging: when that is so, and when not. */
module HelperProofs {
  import opened LineReader
  import opened BackendModel
  import opened BackendProofs
  import opened HelperModel

  /** The lines that are not modelled one by one neither fail nor finish anything. */
  predicate Harmless(voc: Vocabulary) { forall line :: line in voc.others ==> IsQuietCall(voc.others[line]) }

  // ----- what a call does to the life of the backend -----

  /** Calls that cannot finish the backend, nor write an exit. */
  predicate Working(c: Call) { IsQuietCall(c) || c.CallPackage? || c.CallSimultaneous? || c.CallError? }

  lemma {:induction false} ErrorLife(b: Backend, code: ErrorCode)
    requires Inv(b)
    ensures var r := Error(b, code);
            && Inv(r) && r.life.finished == b.life.finished && r.life.finishTimer == b.life.finishTimer
            && r.life.setError && ExitsIn(r.trace) == ExitsIn(b.trace)
            && r.life.exit != ExitUnknown && (r.life.exit == Success ==> b.life.exit == Success)
  {
    ErrorKeepsInv(b, code);
    ErrorFields(b, code);
  }

  lemma {:induction false} ErrorFields(b: Backend, code: ErrorCode)
    requires LifeInv(b)
    ensures var r := Error(b, code);
            && r.life.finished == b.life.finished && r.life.finishTimer == b.life.finishTimer
            && r.life.setError && ExitsIn(r.trace) == ExitsIn(b.trace)
            && r.life.exit != ExitUnknown && (r.life.exit == Success ==> b.life.exit == Success)
  {
    ErrorExits(code);
    if b.life.setError {
      assert Error(b, code) == b && FinishesIn(b.trace) <= 1;
    } else {
      ErrorEffect(b, code);
    }
  }

  lemma {:induction false} ErrorExits(code: ErrorCode)
    ensures ExitFor(code) != ExitUnknown && ExitFor(code) != Success
  {
  }

  lemma {:induction false} WorkingLife(b: Backend, c: Call)
    requires Inv(b) && Working(c)
    ensures var r := Do(b, c);
            && Inv(r) && r.life.finished == b.life.finished && r.life.finishTimer == b.life.finishTimer
            && (b.life.setError ==> r.life.setError) && ExitsIn(r.trace) == ExitsIn(b.trace)
            && (r.life.exit == Success ==> b.life.exit == Success)
  {
    DoKeepsInv(b, c);
    if IsQuietCall(c) {
      QuietCall(b, c);
    } else if c.CallPackage? {
      PackageKeepsInv(b, c.info, c.id, c.summary);
    } else if c.CallError? {
      ErrorLife(b, c.code);
    }
  }

  lemma {:induction false} FinishLife(b: Backend)
    requires Inv(b)
    ensures var r := FinishedCall(b);
            && Inv(r) && r.life.finished && r.life.setError == b.life.setError
            && r.life.exit == b.life.exit && ExitsIn(r.trace) == ExitsIn(b.trace)
  {
    FinishedKeepsInv(b);
    if !b.life.finished { FinishedEffect(b); }
  }

  lemma {:induction false} ExitLife(b: Backend, e: ExitType, done: bool)
    requires Inv(b) && (done ==> b.life.finished)
    ensures var r := ExitBackend(b, e, done);
            && Inv(r) && (b.life.setError ==> r.life.setError) && ExitsIn(r.trace) == ExitsIn(b.trace)
            && (r.life.exit == Success ==> b.life.exit == Success)
            && (r.life.finished <==> b.life.finished || !IsDispatcherExit(e))
            && (IsDispatcherExit(e) ==> r == b)
            && (done ==> r.life.finishTimer == b.life.finishTimer)
            && (!done && !IsDispatcherExit(e) ==> r.life.setError)
  {
    if IsDispatcherExit(e) {
      assert ExitBackend(b, e, done) == b;
    } else {
      var b1 := if e == SigKill then Error(b, ProcessKill) else b;
      ErrorLife(b, ProcessKill);
      FailLife(b1);
      assert ExitBackend(b, e, done) == if done then b1 else FinishedCall(Error(b1, InternalError));
    }
  }

  lemma {:induction false} FailLife(b: Backend)
    requires Inv(b)
    ensures var r := FinishedCall(Error(b, InternalError));
            && Inv(r) && r.life.setError && r.life.finished && ExitsIn(r.trace) == ExitsIn(b.trace)
            && (r.life.exit == Success ==> b.life.exit == Success)
  {
    ErrorLife(b, InternalError);
    FinishLife(Error(b, InternalError));
  }

  // ----- the invariant of a task -----

  /** A dead helper has finished its backend; without a finished line that took an error, and no
      success was written. */
  predicate Contained(h: Helper) {
    && Inv(h.backend)
    && (h.done || !h.child.alive ==> h.backend.life.finished)
    && (h.backend.life.finished ==> h.done || h.backend.life.setError)
    && (!h.done ==> h.backend.life.exit != Success)
    && (h.idleTimer ==> h.done)
    && (h.child.alive ==> !h.child.finished && !IsDispatcherExit(h.child.exit))
    && (h.child.sendingExit ==> h.done) && !h.child.changing
  }

  lemma {:induction false} LineContained(voc: Vocabulary, h: Helper, line: string, now: nat)
    requires Harmless(voc) && Contained(h)
    ensures var r := HandleLine(voc, h, line, now);
            Contained(r) && r.child == h.child && (h.done ==> r.done)
  {
    match MeaningOf(voc, line, now)
    case Finish => FinishLife(h.backend);
    case Act(call) =>
      ActIsWorking(voc, line, now);
      WorkingLife(h.backend, call);
    case Unclear =>
      assert Do(h.backend, CallMessage(BackendError)) == Message(h.backend, BackendError);
      WorkingLife(h.backend, CallMessage(BackendError));
  }

  lemma {:induction false} ActIsWorking(voc: Vocabulary, line: string, now: nat)
    requires Harmless(voc) && MeaningOf(voc, line, now).Act?
    ensures Working(MeaningOf(voc, line, now).call)
  {
  }

  lemma {:induction false} LinesContained(voc: Vocabulary, h: Helper, lines: seq<string>, now: nat)
    requires Harmless(voc) && Contained(h)
    ensures var r := HandleLines(voc, h, lines, now);
            Contained(r) && r.child == h.child && (h.done ==> r.done)
    decreases |lines|
  {
    if lines != [] {
      LineContained(voc, h, lines[0], now);
      LinesContained(voc, HandleLine(voc, h, lines[0], now), lines[1..], now);
    }
  }

  lemma {:induction false} OutputContained(voc: Vocabulary, h: Helper, p: Poll)
    requires Harmless(voc) && Contained(h)
    ensures var r := ReadOutput(voc, h, p);
            Contained(r) && r.child == h.child.(buffer := r.child.buffer) && (h.done ==> r.done)
  {
    var text := h.child.buffer + Appended(p.out);
    var h1 := if p.err != "" then h.(backend := Message(h.backend, BackendError)) else h;
    assert Do(h.backend, CallMessage(BackendError)) == Message(h.backend, BackendError);
    WorkingLife(h.backend, CallMessage(BackendError));
    LinesContained(voc, h1.(child := h1.child.(buffer := Residual(text))), WholeLines(text), p.now);
  }

  lemma {:induction false} ExitContained(h: Helper, w: Wait)
    requires Contained(h) && h.child.alive && (w.Exited? || w.Signalled?)
    ensures var e := ReportedExit(h.child, w);
            var r := ExitCb(h.(child := Bury(h.child, e)), e);
            Contained(r) && r.done == h.done && !r.child.alive && r.child.sendingExit == h.child.sendingExit
  {
    ExitLife(h.backend, ReportedExit(h.child, w), h.done);
  }

  lemma {:induction false} CheckContained(voc: Vocabulary, h: Helper, p: Poll)
    requires Harmless(voc) && Contained(h) && h.child.alive
    ensures var (r, again) := CheckChild(voc, h, p);
            && Contained(r) && (h.done ==> r.done) && r.child.sendingExit == h.child.sendingExit
            && (again ==> r.child.alive)
  {
    OutputContained(voc, h, p);
    if p.wait.Exited? || p.wait.Signalled? { ExitContained(ReadOutput(voc, h, p), p.wait); }
  }

  lemma {:induction false} ExitLoopContained(voc: Vocabulary, h: Helper, polls: seq<Poll>, k: nat)
    requires Harmless(voc) && Contained(h) && h.child.alive && h.done && k <= EXIT_POLLS
    ensures var r := ExitLoop(voc, h, polls, k).0; Contained(r) && r.done
    decreases EXIT_POLLS - k
  {
    var (h1, again) := CheckChild(voc, h, PollAt(polls, k));
    CheckContained(voc, h, PollAt(polls, k));
    if again && k < EXIT_POLLS { ExitLoopContained(voc, h1, polls, k + 1); }
  }

  /** The calls of others while the helper works: anything but a reset, a finish or a success that is
      written by hand. */
  predicate Outside(c: Call) { !c.CallReset? && !c.CallFinished? && c != CallExit(Success) }

  lemma {:induction false} TimersLife(b: Backend)
    requires Inv(b)
    ensures var r := ErrorTimeout(b);
            && Inv(r) && (r.life.finished ==> b.life.finished || r.life.setError)
            && (b.life.finished ==> r.life.finished) && (b.life.setError ==> r.life.setError)
            && r.life.exit == b.life.exit
    ensures var r := FinishTimeout(b);
            && Inv(r) && r.life.finished == b.life.finished && r.life.setError == b.life.setError
            && (r.life.exit == Success ==> b.life.exit == Success || (b.life.finished && !b.life.setError))
  {
    ErrorTimeoutKeepsInv(b);
    FinishTimeoutKeepsInv(b);
    if b.life.errorTimer && !b.life.finished {
      EmitQuiet(b, MessageSignal(BackendError));
      FinishedEffect(Emit(b, MessageSignal(BackendError)));
    }
  }

  lemma {:induction false} OutsideContained(h: Helper, c: Call)
    requires Contained(h) && Outside(c)
    ensures Contained(h.(backend := Do(h.backend, c)))
  {
    if Working(c) {
      WorkingLife(h.backend, c);
    } else if c.CallExit? {
      DoKeepsInv(h.backend, c);
    } else {
      TimersLife(h.backend);
      assert c.CallErrorTimer? || c.CallFinishTimer?;
    }
  }

  lemma {:induction false} IdleContained(voc: Vocabulary, h: Helper, wrote: bool, polls: seq<Poll>)
    requires Harmless(voc) && Contained(h) && !h.child.sendingExit
    ensures var r := IdleTimeout(voc, h, wrote, polls); Contained(r) && !r.child.sendingExit
  {
    if h.idleTimer && h.child.alive && wrote {
      ExitLoopContained(voc, h.(child := h.child.(sendingExit := true)), polls, 0);
    }
  }

  lemma {:induction false} KillContained(h: Helper)
    requires Contained(h)
    ensures Contained(KillHelper(h)) && KillHelper(h).child.sendingExit == h.child.sendingExit
  {
    ErrorLife(h.backend, TransactionCancelled);
  }

  lemma {:induction false} StepContained(voc: Vocabulary, h: Helper, e: Event)
    requires Harmless(voc) && Contained(h) && !h.child.sendingExit
    requires e.BackendEvent? ==> Outside(e.call)
    ensures Contained(Step(voc, h, e)) && !Step(voc, h, e).child.sendingExit
  {
    match e
    case PollEvent(p) => if h.child.alive { CheckContained(voc, h, p); }
    case KillEvent => KillContained(h);
    case SigkillEvent =>
    case IdleEvent(wrote, polls) => IdleContained(voc, h, wrote, polls);
    case BackendEvent(c) => OutsideContained(h, c);
  }

  predicate Undisturbed(events: seq<Event>) {
    forall e :: e in events && e.BackendEvent? ==> Outside(e.call)
  }

  lemma {:induction false} RunContained(voc: Vocabulary, h: Helper, events: seq<Event>)
    requires Harmless(voc) && Contained(h) && !h.child.sendingExit && Undisturbed(events)
    ensures Contained(Run(voc, h, events))
    decreases |events|
  {
    if events != [] {
      assert events[0] in events;
      StepContained(voc, h, events[0]);
      RunContained(voc, Step(voc, h, events[0]), events[1..]);
    }
  }

  /** A task given to a live helper, new or reused, whose exit type is not left over from an exit that
      was asked for. */
  predicate FreshTask(h: Helper) {
    && Inv(h.backend) && !h.backend.life.finished && h.backend.life.exit == ExitUnknown
    && !h.done && !h.idleTimer && h.child.alive && !h.child.finished && !h.child.sendingExit && !h.child.changing
    && !IsDispatcherExit(h.child.exit)
  }

  /** Whatever the helper prints, however it dies, and whatever happens besides: once it is gone the
      backend has finished; and if it never printed its finished line, the exit that has been or will be
      delivered is no success. */
  lemma {:induction false} DeathIsReported(voc: Vocabulary, h: Helper, events: seq<Event>)
    requires Harmless(voc) && FreshTask(h) && Undisturbed(events)
    requires !Run(voc, h, events).child.alive
    ensures var r := Run(voc, h, events);
            && r.backend.life.finished
            && (!r.done ==>
                  && r.backend.life.exit != ExitUnknown && r.backend.life.exit != Success
                  && ExitsIn(FinishTimeout(r.backend).trace) == [r.backend.life.exit])
  {
    RunContained(voc, h, events);
    var r := Run(voc, h, events);
    if !r.done { FinishedDelayEffect(r.backend); }
  }

  predicate SameFinish(b: Backend, r: Backend) {
    r.life.finishTimer == b.life.finishTimer && ExitsIn(r.trace) == ExitsIn(b.trace)
  }

  /** After the finished line, no poll finishes a second time: neither more lines nor the exit. */
  lemma {:induction false} NoSecondFinish(voc: Vocabulary, h: Helper, p: Poll)
    requires Harmless(voc) && Contained(h) && h.done && h.child.alive
    ensures SameFinish(h.backend, CheckChild(voc, h, p).0.backend)
  {
    var h1 := ReadOutput(voc, h, p);
    OutputAfterFinish(voc, h, p);
    OutputContained(voc, h, p);
    if p.wait.Exited? || p.wait.Signalled? { ExitLife(h1.backend, ReportedExit(h1.child, p.wait), h1.done); }
  }

  lemma {:induction false} OutputAfterFinish(voc: Vocabulary, h: Helper, p: Poll)
    requires Harmless(voc) && Contained(h) && h.done
    ensures SameFinish(h.backend, ReadOutput(voc, h, p).backend)
  {
    var text := h.child.buffer + Appended(p.out);
    var h1 := if p.err != "" then h.(backend := Message(h.backend, BackendError)) else h;
    assert Do(h.backend, CallMessage(BackendError)) == Message(h.backend, BackendError);
    WorkingLife(h.backend, CallMessage(BackendError));
    LinesAfterFinish(voc, h1.(child := h1.child.(buffer := Residual(text))), WholeLines(text), p.now);
  }

  lemma {:induction false} LinesAfterFinish(voc: Vocabulary, h: Helper, lines: seq<string>, now: nat)
    requires Harmless(voc) && Contained(h) && h.done
    ensures SameFinish(h.backend, HandleLines(voc, h, lines, now).backend)
    decreases |lines|
  {
    if lines != [] {
      LineContained(voc, h, lines[0], now);
      LineAfterFinish(voc, h, lines[0], now);
      LinesAfterFinish(voc, HandleLine(voc, h, lines[0], now), lines[1..], now);
    }
  }

  lemma {:induction false} LineAfterFinish(voc: Vocabulary, h: Helper, line: string, now: nat)
    requires Harmless(voc) && Contained(h) && h.done
    ensures SameFinish(h.backend, HandleLine(voc, h, line, now).backend)
  {
    match MeaningOf(voc, line, now)
    case Finish =>
    case Act(call) =>
      ActIsWorking(voc, line, now);
      WorkingLife(h.backend, call);
    case Unclear => MessageQuiet(h.backend, BackendError);
  }

  // ----- replacing a helper -----

  /** The lines handled between two states. */
  function NewLines(h: Helper, r: Helper): seq<string>
    requires |h.lines| <= |r.lines|
  {
    r.lines[|h.lines|..]
  }

  predicate SaysFinished(line: string) { Text.Split(line, '\t') == ["finished"] }

  lemma {:induction false} FinishMeansFinished(voc: Vocabulary, line: string, now: nat)
    ensures MeaningOf(voc, line, now) == Finish <==> SaysFinished(line)
  {
    var sections := Text.Split(line, '\t');
    if sections != [] {
      if IsResult(sections[0]) {
        assert !ResultMeaning(sections).Finish?;
      } else if IsProgress(sections[0]) {
        assert !ProgressMeaning(sections, now).Finish?;
      } else if IsNotice(sections[0]) {
        assert !NoticeMeaning(voc, sections).Finish?;
      }
    }
  }

  /** Only a finished line among the lines handled since `h` has finished the backend. */
  predicate FinishedByLines(h: Helper, r: Helper) {
    && Inv(r.backend) && |h.lines| <= |r.lines| && r.lines[..|h.lines|] == h.lines
    && (r.backend.life.finished <==>
          h.backend.life.finished || exists line :: line in NewLines(h, r) && SaysFinished(line))
  }

  lemma {:induction false} NewLinesThen(a: Helper, b: Helper, c: Helper)
    requires |a.lines| <= |b.lines| && b.lines[..|a.lines|] == a.lines
    requires |b.lines| <= |c.lines| && c.lines[..|b.lines|] == b.lines
    ensures |a.lines| <= |c.lines| && c.lines[..|a.lines|] == a.lines
    ensures NewLines(a, c) == NewLines(a, b) + NewLines(b, c)
  {
    assert c.lines == b.lines + NewLines(b, c);
  }

  lemma {:induction false} FinishedByThen(a: Helper, b: Helper, c: Helper)
    requires FinishedByLines(a, b) && FinishedByLines(b, c)
    ensures FinishedByLines(a, c)
  {
    NewLinesThen(a, b, c);
    assert forall line :: line in NewLines(a, c) <==> line in NewLines(a, b) || line in NewLines(b, c);
  }

  lemma {:induction false} SameFinished(h: Helper, r: Helper)
    requires Inv(r.backend) && r.lines == h.lines && r.backend.life.finished == h.backend.life.finished
    ensures FinishedByLines(h, r)
  {
    assert NewLines(h, r) == [];
  }

  lemma {:induction false} LineFinishes(voc: Vocabulary, h: Helper, line: string, now: nat)
    requires Harmless(voc) && Inv(h.backend)
    ensures var r := HandleLine(voc, h, line, now); FinishedByLines(h, r) && r.child == h.child
  {
    var r, m := HandleLine(voc, h, line, now), MeaningOf(voc, line, now);
    FinishMeansFinished(voc, line, now);
    assert r.lines == h.lines + [line] && NewLines(h, r) == [line];
    if m.Finish? {
      FinishLife(h.backend);
      assert line in NewLines(h, r);
    } else if m.Act? {
      ActIsWorking(voc, line, now);
      WorkingLife(h.backend, m.call);
      assert r.backend == Do(h.backend, m.call);
    } else {
      RefusedLife(h.backend);
      assert r.backend == Message(h.backend, BackendError);
    }
  }

  lemma {:induction false} RefusedLife(b: Backend)
    requires Inv(b)
    ensures var r := Message(b, BackendError); Inv(r) && r.life == b.life && ExitsIn(r.trace) == ExitsIn(b.trace)
  {
    MessageQuiet(b, BackendError);
    QuietKeepsInv(b, Message(b, BackendError));
  }

  lemma {:induction false} LinesFinish(voc: Vocabulary, h: Helper, lines: seq<string>, now: nat)
    requires Harmless(voc) && Inv(h.backend)
    ensures var r := HandleLines(voc, h, lines, now); FinishedByLines(h, r) && r.child == h.child
    decreases |lines|
  {
    if lines == [] {
      SameFinished(h, h);
    } else {
      var h1 := HandleLine(voc, h, lines[0], now);
      LineFinishes(voc, h, lines[0], now);
      LinesFinish(voc, h1, lines[1..], now);
      FinishedByThen(h, h1, HandleLines(voc, h1, lines[1..], now));
    }
  }

  lemma {:induction false} OutputFinishes(voc: Vocabulary, h: Helper, p: Poll)
    requires Harmless(voc) && Inv(h.backend)
    ensures var r := ReadOutput(voc, h, p);
            FinishedByLines(h, r) && r.child == h.child.(buffer := r.child.buffer)
  {
    var text := h.child.buffer + Appended(p.out);
    var h1 := if p.err != "" then h.(backend := Message(h.backend, BackendError)) else h;
    assert Do(h.backend, CallMessage(BackendError)) == Message(h.backend, BackendError);
    WorkingLife(h.backend, CallMessage(BackendError));
    var h2 := h1.(child := h1.child.(buffer := Residual(text)));
    SameFinished(h, h2);
    LinesFinish(voc, h2, WholeLines(text), p.now);
    FinishedByThen(h, h2, ReadOutput(voc, h, p));
  }

  /** The exit of a process that is being replaced finishes nothing. */
  lemma {:induction false} CheckFinishes(voc: Vocabulary, h: Helper, p: Poll)
    requires Harmless(voc) && Inv(h.backend) && h.child.changing
    ensures var (r, again) := CheckChild(voc, h, p); FinishedByLines(h, r) && (again ==> r.child.changing)
  {
    if h.child.finished {
      SameFinished(h, h);
    } else {
      var h1 := ReadOutput(voc, h, p);
      OutputFinishes(voc, h, p);
      if p.wait.Exited? || p.wait.Signalled? { ReplacedExit(h, h1, p.wait); }
    }
  }

  lemma {:induction false} ReplacedExit(h: Helper, h1: Helper, w: Wait)
    requires FinishedByLines(h, h1) && h1.child.changing && (w.Exited? || w.Signalled?)
    ensures var e := ReportedExit(h1.child, w);
            FinishedByLines(h, ExitCb(h1.(child := Bury(h1.child, e)), e))
  {
    var r := ExitCb(h1.(child := Bury(h1.child, DispatcherChanged)), DispatcherChanged);
    SameFinished(h1, r);
    FinishedByThen(h, h1, r);
  }

  lemma {:induction false} ExitLoopFinishes(voc: Vocabulary, h: Helper, polls: seq<Poll>, k: nat)
    requires Harmless(voc) && Inv(h.backend) && h.child.changing && k <= EXIT_POLLS
    ensures FinishedByLines(h, ExitLoop(voc, h, polls, k).0)
    decreases EXIT_POLLS - k
  {
    var (h1, again) := CheckChild(voc, h, PollAt(polls, k));
    CheckFinishes(voc, h, PollAt(polls, k));
    if again && k < EXIT_POLLS {
      ExitLoopFinishes(voc, h1, polls, k + 1);
      FinishedByThen(h, h1, ExitLoop(voc, h1, polls, k + 1).0);
    }
  }

  lemma {:induction false} SendExitFinishes(voc: Vocabulary, h: Helper, wrote: bool, polls: seq<Poll>)
    requires Harmless(voc) && Inv(h.backend) && h.child.changing
    ensures FinishedByLines(h, SendExit(voc, h, wrote, polls).0)
  {
    var r := SendExit(voc, h, wrote, polls).0;
    if h.child.sendingExit || h.child.finished || !h.child.alive || !wrote {
      assert r == h;
      SameFinished(h, h);
    } else {
      var h1 := h.(child := h.child.(sendingExit := true));
      var h2 := ExitLoop(voc, h1, polls, 0).0;
      assert r == h2.(child := h2.child.(sendingExit := false));
      SameFinished(h, h1);
      ExitLoopFinishes(voc, h1, polls, 0);
      SameFinished(h2, r);
      FinishedByThen(h, h1, h2);
      FinishedByThen(h, h2, r);
    }
  }

  lemma {:induction false} ReplaceFinishes(voc: Vocabulary, h: Helper, l: Launch)
    requires Harmless(voc) && Inv(h.backend)
    ensures FinishedByLines(h, Replace(voc, h, l))
  {
    var h1 := h.(child := h.child.(changing := true));
    var h2 := SendExit(voc, h1, l.exitWrote, l.polls).0;
    SameFinished(h, h1);
    SendExitFinishes(voc, h1, l.exitWrote, l.polls);
    FinishedByThen(h, h1, h2);
    SameFinished(h2, Replace(voc, h, l));
    FinishedByThen(h, h2, Replace(voc, h, l));
  }

  /** Starting a task finishes it at once exactly when the program cannot be started, or the helper
      that makes way for it still had a finished line to print. A drained one never does. */
  lemma {:induction false} LaunchFinishedExactly(voc: Vocabulary, h: Helper, l: Launch)
    requires Harmless(voc) && Inv(h.backend) && !h.backend.life.finished && !h.child.sendingExit
    ensures var r := RunHelper(voc, h, l);
            && |h.lines| <= |r.lines| && r.lines[..|h.lines|] == h.lines
            && (r.backend.life.finished <==>
                  (!Reuses(h, l) && !l.spawned) || exists line :: line in NewLines(h, r) && SaysFinished(line))
  {
    var h0 := h.(idleTimer := false, done := false);
    var r := RunHelper(voc, h, l);
    if Reuses(h, l) {
      assert r == h0 && NewLines(h, r) == [];
    } else {
      var h1 := if h0.child.alive then Replace(voc, h0, l) else h0;
      ReplaceFinishes(voc, h0, l);
      SameFinished(h0, h0);
      assert NewLines(h, r) == NewLines(h0, h1);
      if !l.spawned {
        ErrorLife(h1.backend, InternalError);
        FinishLife(Error(h1.backend, InternalError));
      }
    }
  }

  // ----- exits that are misread -----

  lemma {:induction false} LineKeepsChild(voc: Vocabulary, h: Helper, line: string, now: nat)
    ensures var r := HandleLine(voc, h, line, now); r.child == h.child && r.lines == h.lines + [line]
  {
  }

  predicate Keeps(h: Helper, r: Helper, lines: seq<string>) { r.child == h.child && r.lines == h.lines + lines }

  lemma {:induction false} KeepsThen(a: Helper, b: Helper, c: Helper, line: string, lines: seq<string>)
    requires Keeps(a, b, [line]) && Keeps(b, c, lines)
    ensures Keeps(a, c, [line] + lines)
  {
    assert a.lines + ([line] + lines) == (a.lines + [line]) + lines;
  }

  lemma {:induction false} LinesKeepChild(voc: Vocabulary, h: Helper, lines: seq<string>, now: nat)
    ensures Keeps(h, HandleLines(voc, h, lines, now), lines)
    decreases |lines|
  {
    if lines == [] {
      assert h.lines + [] == h.lines;
    } else {
      var h1 := HandleLine(voc, h, lines[0], now);
      LineKeepsChild(voc, h, lines[0], now);
      LinesKeepChild(voc, h1, lines[1..], now);
      KeepsThen(h, h1, HandleLines(voc, h1, lines[1..], now), lines[0], lines[1..]);
      assert [lines[0]] + lines[1..] == lines;
    }
  }

  lemma {:induction false} OutputHandled(voc: Vocabulary, h: Helper, p: Poll)
    ensures var r, text := ReadOutput(voc, h, p), h.child.buffer + Appended(p.out);
            && r.child == h.child.(buffer := Residual(text))
            && r.lines == h.lines + WholeLines(text) && NewLines(h, r) == WholeLines(text)
  {
    var text := h.child.buffer + Appended(p.out);
    var h1 := if p.err != "" then h.(backend := Message(h.backend, BackendError)) else h;
    LinesKeepChild(voc, h1.(child := h1.child.(buffer := Residual(text))), WholeLines(text), p.now);
  }

  predicate DoneIsFinished(h: Helper) { h.done ==> h.backend.life.finished }

  lemma {:induction false} LinesDone(voc: Vocabulary, h: Helper, lines: seq<string>, now: nat)
    requires Harmless(voc) && Inv(h.backend) && DoneIsFinished(h)
    ensures DoneIsFinished(HandleLines(voc, h, lines, now))
    decreases |lines|
  {
    if lines != [] {
      LineFinishes(voc, h, lines[0], now);
      if MeaningOf(voc, lines[0], now).Finish? { FinishLife(h.backend); }
      LinesDone(voc, HandleLine(voc, h, lines[0], now), lines[1..], now);
    }
  }

  lemma {:induction false} OutputDone(voc: Vocabulary, h: Helper, p: Poll)
    requires Harmless(voc) && Inv(h.backend) && DoneIsFinished(h)
    ensures DoneIsFinished(ReadOutput(voc, h, p))
  {
    var text := h.child.buffer + Appended(p.out);
    var h1 := if p.err != "" then h.(backend := Message(h.backend, BackendError)) else h;
    assert Do(h.backend, CallMessage(BackendError)) == Message(h.backend, BackendError);
    WorkingLife(h.backend, CallMessage(BackendError));
    LinesDone(voc, h1.(child := h1.child.(buffer := Residual(text))), WholeLines(text), p.now);
  }

  /** The poll that sees a helper gone has the backend finished exactly when it was before, or a finished
      line was among the last lines, or the exit counts as the helper's own: nobody asked for it, and a
      signal killed the helper or no exit type is left over from an exit that was asked for. */
  lemma {:induction false} DeathExactly(voc: Vocabulary, h: Helper, p: Poll)
    requires Harmless(voc) && Inv(h.backend) && DoneIsFinished(h)
    requires !h.child.finished && (p.wait.Exited? || p.wait.Signalled?)
    ensures var r := CheckChild(voc, h, p).0;
            && !r.child.alive && |h.lines| <= |r.lines| && r.lines[..|h.lines|] == h.lines
            && (r.backend.life.finished <==>
                  || h.backend.life.finished
                  || (exists line :: line in NewLines(h, r) && SaysFinished(line))
                  || (!h.child.changing && !h.child.sendingExit
                      && (p.wait.Signalled? || !IsDispatcherExit(h.child.exit))))
  {
    var h1 := ReadOutput(voc, h, p);
    OutputFinishes(voc, h, p);
    OutputDone(voc, h, p);
    ReportedExactly(h.child, h1.child, p.wait);
    ExitLife(h1.backend, ReportedExit(h1.child, p.wait), h1.done);
    var r := CheckChild(voc, h, p).0;
    assert r.lines == h1.lines && NewLines(h, r) == NewLines(h, h1);
  }

  lemma {:induction false} ReportedExactly(c: Child, read: Child, w: Wait)
    requires read == c.(buffer := read.buffer) && (w.Exited? || w.Signalled?)
    ensures !IsDispatcherExit(ReportedExit(read, w)) <==>
              !c.changing && !c.sendingExit && (w.Signalled? || !IsDispatcherExit(c.exit))
  {
  }

  /** Without output, a helper whose exit is misread does not touch the backend at all. */
  lemma {:induction false} SilentDeathExactly(voc: Vocabulary, h: Helper, w: Wait)
    requires Inv(h.backend) && !h.backend.life.finished && !h.done && (w.Exited? || w.Signalled?)
    requires h.child.alive && !h.child.finished && !h.child.sendingExit && !h.child.changing && h.child.buffer == ""
    ensures var r := CheckChild(voc, h, Poll([], "", w, 0)).0;
            && (r.backend.life.finished <==> w.Signalled? || !IsDispatcherExit(h.child.exit))
            && (!r.backend.life.finished ==> r.backend == h.backend && !r.child.alive)
  {
    var p := Poll([], "", w, 0);
    NoOutput(voc, h, p);
    var e := ReportedExit(h.child, w);
    assert CheckChild(voc, h, p).0 == ExitCb(h.(child := Bury(h.child, e)), e);
    ReportedExactly(h.child, h.child, w);
    ExitLife(h.backend, e, h.done);
  }

  lemma {:induction false} NoOutput(voc: Vocabulary, h: Helper, p: Poll)
    requires h.child.buffer == "" && p.out == [] && p.err == ""
    ensures ReadOutput(voc, h, p) == h
  {
    Text.PieceOnly("", '\n');
    var text := h.child.buffer + Appended(p.out);
    assert Appended(p.out) == "" && text == "";
    assert WholeLines(text) == [] && Residual(text) == "";
    assert h.child.(buffer := "") == h.child && h.(child := h.child) == h;
  }

  /** That is what comes of the ordinary shutdown of an idle helper: the exit type it leaves behind is
      inherited by the next helper of the same object, whose unannounced return is then taken for
      another shutdown, and its transaction is left running with no timer pending. */
  lemma {:induction false} ShutdownHidesCrash(
      voc: Vocabulary, h: Helper, now: nat, program: string, ok: bool, b: Backend)
    requires h.done && h.idleTimer && h.child.alive && !h.child.finished && !h.child.sendingExit && !h.child.changing
    requires h.child.buffer == ""
    requires Inv(b) && !b.life.finished && !b.life.setError
    ensures var bye := Poll([], "", Exited(true), now);
            var idle := IdleTimeout(voc, h, true, [bye]).(backend := b);
            var task := RunHelper(voc, idle, Launch(program, true, true, [], true));
            var gone := CheckChild(voc, task, Poll([], "", Exited(ok), 0)).0;
            && !idle.child.alive && task.child.alive && !gone.child.alive
            && gone.backend == b && !gone.backend.life.errorTimer && !gone.backend.life.finishTimer
  {
    var bye := Poll([], "", Exited(true), now);
    var h1 := h.(child := h.child.(sendingExit := true));
    NoOutput(voc, h1, bye);
    assert PollAt([bye], 0) == bye;
    var h2 := h1.(child := Bury(h1.child, DispatcherExit));
    assert CheckChild(voc, h1, bye) == (h2, false);
    var idle := h2.(child := h2.child.(sendingExit := false), backend := b);
    assert IdleTimeout(voc, h, true, [bye]).(backend := b) == idle;
    var task := RunHelper(voc, idle, Launch(program, true, true, [], true));
    assert task.child == Spawned(idle.child, program) && task.backend == b && !task.done;
    SilentDeathExactly(voc, task, Exited(ok));
  }

  // ----- which tasks start well -----

  /** A task for a helper that is reused, or for a new one where none is alive, starts well exactly when
      the program can be started and no exit type is left over from an exit that was asked for. */
  lemma {:induction false} TaskFreshExactly(voc: Vocabulary, h: Helper, l: Launch)
    requires Inv(h.backend) && !h.backend.life.finished && h.backend.life.exit == ExitUnknown
    requires !h.child.sendingExit && !h.child.changing && (!h.child.alive || Reuses(h, l))
    ensures FreshTask(RunHelper(voc, h, l)) <==> (Reuses(h, l) || l.spawned) && !IsDispatcherExit(h.child.exit)
  {
    if !Reuses(h, l) && !l.spawned {
      ErrorLife(h.backend, InternalError);
      FinishLife(Error(h.backend, InternalError));
    }
  }

  lemma {:induction false} ExitLoopType(voc: Vocabulary, h: Helper, polls: seq<Poll>, k: nat)
    requires h.child.changing && h.child.alive && !h.child.finished && k <= EXIT_POLLS
    ensures var r := ExitLoop(voc, h, polls, k).0; r.child.alive || r.child.exit == DispatcherChanged
    decreases EXIT_POLLS - k
  {
    var p := PollAt(polls, k);
    var (h1, again) := CheckChild(voc, h, p);
    OutputHandled(voc, h, p);
    if again && k < EXIT_POLLS { ExitLoopType(voc, h1, polls, k + 1); }
  }

  /** The task of a helper that replaced another never starts well, if the other did exit. */
  lemma {:induction false} ReplacementNotFresh(voc: Vocabulary, h: Helper, l: Launch)
    requires h.child.alive && !h.child.finished && !h.child.sendingExit && !Reuses(h, l) && l.exitWrote
    requires var h0 := h.(idleTimer := false, done := false); !Replace(voc, h0, l).child.alive
    ensures !FreshTask(RunHelper(voc, h, l))
  {
    var h0 := h.(idleTimer := false, done := false);
    ExitLoopType(voc, h0.(child := h0.child.(changing := true, sendingExit := true)), l.polls, 0);
  }

  // ----- what one helper leaves in the buffer -----

  /** A helper that is gone leaves the unfinished line of its output in the buffer, and a new one starts
      with it. The lines of its first poll are not those of its own output exactly when something was
      left and it prints a whole line. */
  lemma {:induction false} LeftoverReachesNext(voc: Vocabulary, h: Helper, last: Poll, l: Launch, p: Poll)
    requires !h.child.finished && (last.wait.Exited? || last.wait.Signalled?)
    requires !h.child.sendingExit && l.spawned
    ensures var gone := CheckChild(voc, h, last).0;
            var task := RunHelper(voc, gone, l);
            var left, own := Residual(h.child.buffer + Appended(last.out)), Appended(p.out);
            && gone.child.buffer == left && task.child.buffer == left
            && ReadOutput(voc, task, p).lines == task.lines + WholeLines(left + own)
            && (WholeLines(left + own) != WholeLines(own) <==> left != "" && '\n' in own)
  {
    OutputHandled(voc, h, last);
    var gone := CheckChild(voc, h, last).0;
    var left := Residual(h.child.buffer + Appended(last.out));
    assert gone.child.buffer == left && !gone.child.alive && !gone.child.sendingExit;
    var task := RunHelper(voc, gone, l);
    assert task.child.buffer == left;
    OutputHandled(voc, task, p);
    ResidualHasNoNewline(h.child.buffer + Appended(last.out));
    LeftoverChangesLines(left, Appended(p.out));
  }

}
