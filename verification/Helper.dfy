/** The helper object: the process that is run, its output and the backend that its lines speak to. */
module HelperObject {
  import opened Shared
  import opened Text
  import opened Packages
  import opened Numbers
  import opened LineReader
  import opened BackendModel
  import opened HelperModel
  import BackendObject

  // ----- one step of the functions that the methods below are proved against -----

  lemma {:induction false} ReadOutputIs(voc: Vocabulary, h: Helper, p: Poll)
    ensures var text := h.child.buffer + Appended(p.out);
            var h1 := h.(child := h.child.(buffer := Residual(text)));
            ReadOutput(voc, h, p) == HandleLines(
              voc, if p.err != "" then h1.(backend := Message(h.backend, BackendError)) else h1,
              WholeLines(text), p.now)
  {
  }

  /** What is left of the exit loop after its poll `k` gave `h` and `again`. */
  function RestOfLoop(voc: Vocabulary, h: Helper, polls: seq<Poll>, k: nat, again: bool): (Helper, bool)
    requires k <= EXIT_POLLS
  {
    if again && k < EXIT_POLLS then ExitLoop(voc, h, polls, k + 1) else (h, again || k < EXIT_POLLS)
  }

  lemma {:induction false} ExitLoopIs(voc: Vocabulary, h: Helper, polls: seq<Poll>, k: nat, r: Helper, again: bool)
    requires k <= EXIT_POLLS && (r, again) == HelperModel.CheckChild(voc, h, PollAt(polls, k))
    ensures ExitLoop(voc, h, polls, k) == RestOfLoop(voc, r, polls, k, again)
  {
  }

  lemma {:induction false} ReplaceIs(voc: Vocabulary, h: Helper, l: Launch, r: Helper, ok: bool)
    requires (r, ok) == SendExit(voc, h.(child := h.child.(changing := true)), l.exitWrote, l.polls)
    ensures Replace(voc, h, l) == r.(child := r.child.(changing := false, poll := r.child.poll && ok))
  {
  }

  lemma {:induction false} StartIs(voc: Vocabulary, h: Helper, l: Launch, r: Helper)
    requires !h.child.sendingExit && !Reuses(h, l) && r == if h.child.alive then Replace(voc, h, l) else h
    ensures StartProcess(voc, h, l)
         == if l.spawned then (r.(child := Spawned(r.child, l.program)), true)
            else (r.(child := r.child.(finished := false)), false)
  {
  }

  class PkBackendSpawn {
    const backend: BackendObject.PkBackend
    const voc: Vocabulary
    var child: Child
    var finished: bool
    var killId: bool
    ghost var lines: seq<string>

    ghost predicate Valid()
      reads this, backend, backend.time
    {
      backend.Valid()
    }

    ghost function View(): Helper
      reads this, backend, backend.time
    {
      Helper(child, finished, killId, backend.View(), lines)
    }

    constructor (backend: BackendObject.PkBackend, voc: Vocabulary, allowSigkill: bool)
      requires backend.Valid()
      ensures Valid() && this.backend == backend && this.voc == voc
      ensures View() == Helper(Child(false, false, false, false, false, false, allowSigkill, SpawnUnknown, "", ""),
                               false, false, backend.View(), [])
    {
      this.backend, this.voc := backend, voc;
      child := Child(false, false, false, false, false, false, allowSigkill, SpawnUnknown, "", "");
      finished, killId, lines := false, false, [];
    }

    // ----- lines -----

    method StartKillTimer()
      modifies this`finished, this`killId
      ensures finished && killId
    {
      finished := true;
      killId := true;
    }

    /** The present task does what `m` says to the backend, and nothing if it is unclear. */
    twostate predicate Obeyed(m: Meaning, ok: bool)
      reads backend, backend.time
    {
      && ok == !m.Unclear?
      && backend.View() == match m
                           case Finish => FinishedCall(old(backend.View()))
                           case Act(call) => Do(old(backend.View()), call)
                           case Unclear => old(backend.View())
    }

    method ParsePercentage(text: string) returns (value: Option<nat>)
      ensures value == PercentageIn(text)
    {
      var n := StrToInt(text);
      if n.None? {
        return None;
      }
      if n.value < 0 || n.value > 100 {
        return None;
      }
      return Some(n.value);
    }

    method ParseItem(sections: seq<string>) returns (ok: bool)
      requires Valid() && |sections| == 3
      modifies backend
      ensures Valid() && Obeyed(ItemMeaning(sections), ok)
    {
      if !ValidId(sections[1]) {
        return false;
      }
      var value := ParsePercentage(sections[2]);
      if value.None? {
        return false;
      }
      backend.SetItemProgress(sections[1], value.value);
      return true;
    }

    method ParseSpeed(text: string) returns (ok: bool)
      requires Valid()
      modifies backend
      ensures Valid()
      ensures var speed := StrToUint64(text);
              Obeyed(if speed.None? then Unclear else Act(CallSpeed(speed.value % UINT_RANGE)), ok)
    {
      var speed := StrToUint64(text);
      if speed.None? {
        return false;
      }
      backend.SetSpeed(speed.value % UINT_RANGE);
      return true;
    }

    method ParseProgress(sections: seq<string>, now: nat) returns (ok: bool)
      requires Valid() && sections != [] && IsProgress(sections[0])
      modifies backend, backend.time
      ensures Valid() && Obeyed(ProgressMeaning(sections, now), ok)
    {
      var command, size := sections[0], |sections|;
      if command == "no-percentage-updates" {
        if size != 1 {
          return false;
        }
        backend.SetPercentage(PERCENTAGE_INVALID, now);
        return true;
      } else if command == "item-percentage" {
        if size != 3 {
          return false;
        }
        ok := ParseItem(sections);
        return;
      }
      if size != 2 {
        return false;
      }
      if command == "speed" {
        ok := ParseSpeed(sections[1]);
        return;
      }
      var value := ParsePercentage(sections[1]);
      if value.None? {
        return false;
      }
      if command == "percentage" {
        backend.SetPercentage(value.value, now);
      } else {
        backend.SetSubPercentage(value.value);
      }
      return true;
    }

    method ParseNotice(sections: seq<string>) returns (ok: bool)
      requires Valid() && sections != [] && IsNotice(sections[0])
      modifies backend
      ensures Valid() && Obeyed(NoticeMeaning(voc, sections), ok)
    {
      var command, size := sections[0], |sections|;
      if command == "message" {
        if size != 3 || sections[1] !in voc.messages {
          return false;
        }
        backend.Message(voc.messages[sections[1]]);
        return true;
      }
      if size != 2 {
        return false;
      }
      if command == "status" {
        if sections[1] !in voc.statuses {
          return false;
        }
        backend.SetStatus(voc.statuses[sections[1]]);
        return true;
      }
      if sections[1] == "true" {
        backend.SetAllowCancel(true);
      } else if sections[1] == "false" {
        backend.SetAllowCancel(false);
      } else {
        return false;
      }
      return true;
    }

    method ParsePackage(sections: seq<string>) returns (ok: bool)
      requires Valid() && |sections| == 4
      modifies backend
      ensures Valid() && Obeyed(PackageMeaning(sections), ok)
    {
      if !ValidId(sections[2]) {
        return false;
      }
      var info := InfoFrom(sections[1]);
      if info == InfoUnknown {
        return false;
      }
      backend.PackageCall(info, sections[2], Some(sections[3]));
      return true;
    }

    method ParseResult(sections: seq<string>) returns (ok: bool)
      requires Valid() && sections != [] && IsResult(sections[0])
      modifies backend
      ensures Valid() && Obeyed(ResultMeaning(sections), ok)
    {
      if sections[0] == "package" {
        if |sections| != 4 {
          return false;
        }
        ok := ParsePackage(sections);
        return;
      }
      if |sections| != 3 {
        return false;
      }
      backend.Files(sections[1], sections[2]);
      return true;
    }

    /** The finished line also starts the timer of the idle shutdown. */
    method ParseEnd(sections: seq<string>) returns (ok: bool)
      requires Valid() && sections != [] && IsEnd(sections[0])
      modifies this`finished, this`killId, backend
      ensures Valid() && Obeyed(EndMeaning(voc, sections), ok)
      ensures var m := EndMeaning(voc, sections);
              finished == (m.Finish? || old(finished)) && killId == (m.Finish? || old(killId))
    {
      if sections[0] == "finished" {
        if |sections| != 1 {
          return false;
        }
        backend.Finished();
        StartKillTimer();
        return true;
      }
      if |sections| != 3 || sections[1] !in voc.errors {
        return false;
      }
      backend.ErrorCode(voc.errors[sections[1]]);
      return true;
    }

    /** The commands; each one counts its sections before it acts. */
    method ParseStdout(line: string, now: nat) returns (ok: bool)
      requires Valid()
      modifies this`finished, this`killId, backend, backend.time
      ensures Valid() && Obeyed(MeaningOf(voc, line, now), ok)
      ensures var m := MeaningOf(voc, line, now);
              finished == (m.Finish? || old(finished)) && killId == (m.Finish? || old(killId))
    {
      var sections := Split(line, '\t');
      if |sections| == 0 {
        return false;
      }
      var command := sections[0];
      if IsResult(command) {
        ok := ParseResult(sections);
      } else if IsEnd(command) {
        ok := ParseEnd(sections);
      } else if IsProgress(command) {
        ok := ParseProgress(sections, now);
      } else if IsNotice(command) {
        ok := ParseNotice(sections);
      } else if line in voc.others {
        backend.Perform(voc.others[line]);
        return true;
      } else {
        return false;
      }
    }

    method StdoutCb(line: string, now: nat)
      requires Valid()
      modifies this`finished, this`killId, this`lines, backend, backend.time
      ensures Valid() && View() == HandleLine(voc, old(View()), line, now)
    {
      lines := lines + [line];
      var ok := ParseStdout(line, now);
      if !ok {
        backend.Message(BackendError);
      }
    }

    method StderrCb(text: string)
      requires Valid()
      modifies backend
      ensures Valid() && backend.View() == Message(old(backend.View()), BackendError)
    {
      backend.Message(BackendError);
    }

    /** Handles every line but the last piece, and erases what was handled from the buffer. */
    method HandleWholeLines(now: nat)
      requires Valid()
      modifies this, backend, backend.time
      ensures Valid()
      ensures var text := old(child.buffer);
              var start := old(View()).(child := old(child).(buffer := Residual(text)));
              View() == HandleLines(voc, start, WholeLines(text), now)
    {
      var all, rest := TakeWholeLines(child.buffer);
      child := child.(buffer := rest);
      var i := 0;
      ghost var start := View();
      assert all[0..] == all;
      while i < |all|
        invariant i <= |all| && Valid()
        invariant HandleLines(voc, View(), all[i..], now) == HandleLines(voc, start, all, now)
      {
        assert all[i..][1..] == all[i + 1..];
        StdoutCb(all[i], now);
        i := i + 1;
      }
    }

    // ----- polling and the end of a process -----

    method ExitCallback(e: ExitType)
      requires Valid()
      modifies backend
      ensures Valid() && View() == ExitCb(old(View()), e)
    {
      if e == SigKill {
        backend.ErrorCode(ProcessKill);
      }
      if e == DispatcherExit || e == DispatcherChanged {
        return;
      }
      if !finished {
        if !backend.life.setError {
          backend.ErrorCode(InternalError);
        }
        backend.Finished();
      }
    }

    method ReadPipes(p: Poll)
      requires Valid()
      modifies this, backend, backend.time
      ensures Valid() && View() == ReadOutput(voc, old(View()), p)
    {
      ReadOutputIs(voc, View(), p);
      var filled := ReadFdIntoBuffer(child.buffer, p.out);
      child := child.(buffer := filled);
      if p.err != "" {
        StderrCb(p.err);
      }
      HandleWholeLines(p.now);
    }

    method ChildExited(wait: Wait)
      requires Valid() && (wait.Exited? || wait.Signalled?)
      modifies this, backend
      ensures Valid()
      ensures var e := ReportedExit(old(child), wait);
              View() == ExitCb(old(View()).(child := Bury(old(child), e)), e)
    {
      var e := child.exit;
      if wait.Signalled? {
        e := if wait.quit then SigQuit else SigKill;
      } else if e == SpawnUnknown {
        e := if wait.ok then SpawnSuccess else SpawnFailed;
      }
      if child.changing {
        e := DispatcherChanged;
      } else if child.sendingExit {
        e := DispatcherExit;
      }
      child := child.(alive := false, poll := false, killTimer := false, finished := true, exit := e);
      ExitCallback(e);
    }

    method CheckChild(p: Poll) returns (again: bool)
      requires Valid()
      modifies this, backend, backend.time
      ensures Valid() && (View(), again) == HelperModel.CheckChild(voc, old(View()), p)
    {
      if child.finished {
        return false;
      }
      ReadPipes(p);
      if p.wait.WaitFailed? || p.wait.NotYet? {
        return true;
      }
      ChildExited(p.wait);
      return false;
    }

    method WaitForExit(polls: seq<Poll>) returns (ok: bool)
      requires Valid()
      modifies this, backend, backend.time
      ensures Valid() && (View(), ok) == ExitLoop(voc, old(View()), polls, 0)
    {
      ghost var start := View();
      var count := 0;
      var again := CheckChild(PollAt(polls, 0));
      ExitLoopIs(voc, start, polls, 0, View(), again);
      while again && count < EXIT_POLLS
        invariant count <= EXIT_POLLS && Valid()
        invariant ExitLoop(voc, start, polls, 0) == RestOfLoop(voc, View(), polls, count, again)
        decreases EXIT_POLLS - count
      {
        ghost var h := View();
        count := count + 1;
        again := CheckChild(PollAt(polls, count));
        ExitLoopIs(voc, h, polls, count, View(), again);
      }
      ok := again || count < EXIT_POLLS;
    }

    /** Tells the process to exit and polls it until it is gone, for a limited time. */
    method Exit(wrote: bool, polls: seq<Poll>) returns (ok: bool)
      requires Valid()
      modifies this, backend, backend.time
      ensures Valid() && (View(), ok) == SendExit(voc, old(View()), wrote, polls)
    {
      if child.sendingExit {
        return false;
      }
      if child.finished || !child.alive || !wrote {
        return false;
      }
      ghost var h := View();
      child := child.(sendingExit := true);
      assert View() == h.(child := h.child.(sendingExit := true));
      ok := WaitForExit(polls);
      child := child.(sendingExit := false);
    }

    // ----- starting and stopping -----

    method ReplaceProcess(l: Launch)
      requires Valid()
      modifies this, backend, backend.time
      ensures Valid() && View() == Replace(voc, old(View()), l)
    {
      ghost var h := View();
      child := child.(changing := true);
      assert View() == h.(child := h.child.(changing := true));
      var exited := Exit(l.exitWrote, l.polls);
      ReplaceIs(voc, h, l, View(), exited);
      if !exited {
        child := child.(poll := false);
      }
      child := child.(changing := false);
    }

    method NewProcess(l: Launch) returns (ok: bool)
      modifies this`child
      ensures ok == l.spawned
      ensures child == if ok then Spawned(old(child), l.program) else old(child).(finished := false)
    {
      child := child.(finished := false);
      if !l.spawned {
        return false;
      }
      child := child.(alive := true, program := l.program, poll := true);
      return true;
    }

    method Argv(l: Launch) returns (ok: bool)
      requires Valid()
      modifies this, backend, backend.time
      ensures Valid() && (View(), ok) == StartProcess(voc, old(View()), l)
    {
      ghost var h := View();
      if child.sendingExit {
        return false;
      }
      if child.alive {
        if child.program == l.program && !child.finished && l.reuseWrote {
          return true;
        }
        ReplaceProcess(l);
      }
      StartIs(voc, h, l, View());
      ok := NewProcess(l);
    }

    method RunHelper(l: Launch)
      requires Valid()
      modifies this, backend, backend.time
      ensures Valid() && View() == HelperModel.RunHelper(voc, old(View()), l)
    {
      if killId {
        killId := false;
      }
      finished := false;
      var ok := Argv(l);
      if !ok {
        backend.ErrorCode(InternalError);
        backend.Finished();
      }
    }

    method Kill()
      requires Valid()
      modifies this`child, backend
      ensures Valid() && View() == KillHelper(old(View()))
    {
      backend.ErrorCode(TransactionCancelled);
      if child.killTimer || !child.alive || child.finished {
        return;
      }
      child := child.(exit := SigQuit);
      if child.allowSigkill {
        child := child.(killTimer := true);
      }
    }

    method SigkillCallback()
      modifies this`child
      ensures child == SigkillCb(old(child))
    {
      if child.finished {
        return;
      }
      child := child.(exit := SigKill);
    }

    /** The timer that starts with a finished line. */
    method ExitTimeoutCb(wrote: bool, polls: seq<Poll>)
      requires Valid() && killId
      modifies this, backend, backend.time
      ensures Valid() && View() == IdleTimeout(voc, old(View()), wrote, polls)
    {
      if child.alive {
        var _ := Exit(wrote, polls);
      }
    }
  }
}
